/** A Dimension: a named, weighted container of Metrics keyed by name.  It
    refuses any metric that would push the total metric weight past
    1.0 + 1e-10, scores itself as the weighted sum of its metrics' scores, and
    evaluates its metrics one by one, skipping any metric whose evaluation fails. */
module CoreDimension {
  import opened Wrappers
  import opened Aggregate
  import opened CoreMetric

  /** The serialised form of a dimension. */
  datatype DimensionRecord = DimensionRecord(
    dimension: string,
    dimensionWeight: real,
    dimensionScore: real,
    metrics: map<string, MetricRecord>,
    metadata: map<string, Value>)

  function WeightOfMetric(m: Metric): real {
    m.weight
  }

  function NameOfMetric(m: Metric): string {
    m.name
  }

  /** Weight and current score of the metrics named by `ns`, in order. */
  function Entries(ns: seq<string>, ms: map<string, Metric>): (es: seq<Weighted>)
    requires Covers(ns, ms)
    reads ms.Values
    ensures |es| == |ns|
  {
    if ns == [] then []
    else Entries(ns[..|ns| - 1], ms) + [Weighted(ms[ns[|ns| - 1]].weight, ms[ns[|ns| - 1]].score)]
  }

  /** Entry `i` is the weight and score of the metric named `ns[i]`. */
  lemma {:induction false} EntriesAt(ns: seq<string>, ms: map<string, Metric>)
    requires Covers(ns, ms)
    ensures forall i :: 0 <= i < |ns| ==> Entries(ns, ms)[i] == Weighted(ms[ns[i]].weight, ms[ns[i]].score)
  {
    if ns != [] {
      var init := ns[..|ns| - 1];
      EntriesAt(init, ms);
      assert forall i :: 0 <= i < |init| ==> init[i] == ns[i];
    }
  }

  lemma {:induction false} EntriesTotalWeight(ns: seq<string>, ms: map<string, Metric>)
    requires Covers(ns, ms)
    ensures TotalWeight(Entries(ns, ms)) == KeyedTotal(ns, ms, WeightOfMetric)
    ensures NonNegativeWeights(Entries(ns, ms)) && ScoresWithin(Entries(ns, ms), 1.0)
  {
    EntriesAt(ns, ms);
    if ns != [] {
      var init := ns[..|ns| - 1];
      EntriesTotalWeight(init, ms);
      assert Entries(ns, ms)[..|ns| - 1] == Entries(init, ms);
    }
  }

  /** The metric's weight and the score one attempt on `args` gives it. */
  function Attempted(m: Metric, args: Args): Weighted
    reads m
  {
    Weighted(m.weight, ScoreAfter(m.score, m.evaluationFn, args))
  }

  /** One more attempt on `args` would leave the metric's score where it is. */
  ghost predicate Fixed(m: Metric, args: Args)
    reads m
  {
    ScoreAfter(m.score, m.evaluationFn, args) == m.score
  }

  /** Weight and score after one evaluation attempt on `args` of the metrics
      named by `ns`, in order. */
  function EntriesAfter(ns: seq<string>, ms: map<string, Metric>, args: Args): (es: seq<Weighted>)
    requires Covers(ns, ms)
    reads ms.Values
    ensures |es| == |ns|
  {
    if ns == [] then []
    else EntriesAfter(ns[..|ns| - 1], ms, args) + [Attempted(ms[ns[|ns| - 1]], args)]
  }

  /** Entry `i` is the weight of the metric named `ns[i]` and the score one
      attempt gives it. */
  lemma {:induction false} EntriesAfterAt(ns: seq<string>, ms: map<string, Metric>, args: Args)
    requires Covers(ns, ms)
    ensures forall i :: 0 <= i < |ns| ==> EntriesAfter(ns, ms, args)[i] == Attempted(ms[ns[i]], args)
  {
    if ns != [] {
      var init := ns[..|ns| - 1];
      EntriesAfterAt(init, ms, args);
      assert forall i :: 0 <= i < |init| ==> init[i] == ns[i];
    }
  }

  /** The entries of the metrics named by `ns`, each as recorded in `rec` for
      its metric object. */
  function Recorded(ns: seq<string>, ms: map<string, Metric>, rec: map<Metric, Weighted>): (es: seq<Weighted>)
    requires Covers(ns, ms) && forall n :: n in ms ==> ms[n] in rec
    ensures |es| == |ns|
  {
    if ns == [] then [] else Recorded(ns[..|ns| - 1], ms, rec) + [rec[ms[ns[|ns| - 1]]]]
  }

  /** When `rec` holds what one attempt gives every metric, the entries after
      one attempt are the recorded ones. */
  lemma {:induction false} EntriesAfterRecorded(ns: seq<string>, ms: map<string, Metric>, args: Args, rec: map<Metric, Weighted>)
    requires Covers(ns, ms)
    requires forall n :: n in ms ==> ms[n] in rec && rec[ms[n]] == Attempted(ms[n], args)
    ensures EntriesAfter(ns, ms, args) == Recorded(ns, ms, rec)
  {
    if ns != [] {
      EntriesAfterRecorded(ns[..|ns| - 1], ms, args, rec);
    }
  }

  /** When no attempt would change any score, the entries after one attempt
      are the current entries. */
  lemma {:induction false} EntriesSettled(ns: seq<string>, ms: map<string, Metric>, args: Args)
    requires Covers(ns, ms)
    requires forall n :: n in ms ==> ScoreAfter(ms[n].score, ms[n].evaluationFn, args) == ms[n].score
    ensures EntriesAfter(ns, ms, args) == Entries(ns, ms)
  {
    if ns != [] {
      EntriesSettled(ns[..|ns| - 1], ms, args);
    }
  }

  class Dimension {
    const name: string
    const weight: Fraction
    var metrics: map<string, Metric>
    /** The metric names in insertion order: the iteration order of the source's dict. */
    var names: seq<string>
    var metadata: map<string, Value>

    /** The names list the metric keys once each, every metric is stored under
        its own name, and the metric weights stay under the ceiling. */
    ghost predicate Valid()
      reads this
    {
      && Distinct(names)
      && (forall n :: n in metrics <==> n in names)
      && (forall n :: n in metrics ==> metrics[n].name == n)
      && KeyedTotal(names, metrics, WeightOfMetric) <= Ceiling
    }

    /** The weight is checked by `NewDimension`, which models the raising constructor. */
    constructor (name: string, weight: Fraction)
      ensures Valid()
      ensures this.name == name && this.weight == weight
      ensures metrics == map[] && names == [] && metadata == map[]
    {
      this.name := name;
      this.weight := weight;
      metrics := map[];
      names := [];
      metadata := map[];
    }

    /** `sum(m.weight for m in self.metrics.values())`. */
    function TotalMetricWeight(): real
      reads this
      requires Valid()
    {
      KeyedTotal(names, metrics, WeightOfMetric)
    }

    /** The dimension score: the weighted sum of the metric scores. */
    function Score(): real
      reads this, metrics.Values
      requires Valid()
    {
      WeightedSum(Entries(names, metrics))
    }

    /** What `evaluate` on `args` returns from the current state: the weighted
        sum of the scores the metrics hold after one attempt each. */
    ghost function ScoreOn(args: Args): real
      reads this, metrics.Values
      requires Valid()
    {
      WeightedSum(EntriesAfter(names, metrics, args))
    }

    /** Every metric already holds the score another attempt on `args` would give it. */
    ghost predicate Settled(args: Args)
      reads this, metrics.Values
    {
      forall n :: n in metrics ==> Fixed(metrics[n], args)
    }

    /** What evaluating returns, read off the attempts recorded in `rec`. */
    lemma ScoreOnRecorded(args: Args, rec: map<Metric, Weighted>)
      requires Valid()
      requires forall n :: n in metrics ==> metrics[n] in rec && rec[metrics[n]] == Attempted(metrics[n], args)
      ensures ScoreOn(args) == WeightedSum(Recorded(names, metrics, rec))
    {
      EntriesAfterRecorded(names, metrics, args, rec);
    }

    /** A settled dimension's score is what evaluating it again would return. */
    lemma SettledScore(args: Args)
      requires Valid() && Settled(args)
      ensures Score() == ScoreOn(args)
    {
      EntriesSettled(names, metrics, args);
    }

    lemma EmptyIffNoNames()
      requires Valid()
      ensures |metrics| == 0 <==> names == []
    {
      if names != [] {
        assert names[0] in metrics;
      }
    }

    lemma ScoreBounds()
      requires Valid()
      ensures 0.0 <= Score() <= TotalMetricWeight() <= Ceiling
    {
      EntriesTotalWeight(names, metrics);
      ScoreBelowTotal(Entries(names, metrics));
    }

    /** Admits the metric iff the current total plus its weight stays within the
        ceiling.  A refused call changes nothing; an accepted one stores the
        metric under its name, replacing any metric of that name, whose weight
        still counted in the check. */
    method AddMetric(metric: Metric) returns (r: Outcome)
      requires Valid()
      modifies this`metrics, this`names
      ensures Valid()
      ensures r.Pass? <==> Admits(old(TotalMetricWeight()), metric.weight)
      ensures r.Fail? ==> r.error == WeightCeilingExceeded && metrics == old(metrics) && names == old(names)
      ensures r.Pass? ==> metrics == old(metrics)[metric.name := metric]
      ensures r.Pass? ==> names == if metric.name in old(metrics) then old(names) else old(names) + [metric.name]
    {
      var total := TotalMetricWeight();
      if total + metric.weight > Ceiling {
        return Fail(WeightCeilingExceeded);
      }
      TableInsert(names, metrics, NameOfMetric, WeightOfMetric, metric);
      names := Inserted(names, metric.name);
      metrics := metrics[metric.name := metric];
      return Pass;
    }

    /** `calculate_score`: 0.0 for an empty dimension, otherwise the weighted
        sum; it reads the state and changes nothing. */
    method CalculateScore() returns (r: real)
      requires Valid()
      ensures r == Score()
      ensures 0.0 <= r <= TotalMetricWeight() && r <= Ceiling
    {
      ScoreBounds();
      if |metrics| == 0 {
        EmptyIffNoNames();
        return 0.0;
      }
      r := Accumulate(Entries(names, metrics));
    }

    /** Attempts every metric in turn.  A metric whose evaluation fails keeps
        its previous score and the remaining metrics are still attempted; the
        call itself never fails and returns the new dimension score. */
    method Evaluate(args: Args) returns (r: real)
      requires Valid()
      modifies metrics.Values
      ensures Valid()
      ensures forall n :: n in metrics ==>
        metrics[n].score == ScoreAfter(old(metrics[n].score), metrics[n].evaluationFn, args)
      ensures forall n :: n in metrics ==>
        metrics[n].evaluationFn == old(metrics[n].evaluationFn) && metrics[n].rawResults == old(metrics[n].rawResults)
      ensures r == Score() && 0.0 <= r <= Ceiling
      ensures r == old(ScoreOn(args)) && Settled(args)
    {
      ghost var attempts := EntriesAfter(names, metrics, args);
      EntriesAfterAt(names, metrics, args);
      EvaluateMetrics(args);
      r := CalculateScore();
      EntriesAt(names, metrics);
      assert Entries(names, metrics) == attempts;
      forall n | n in metrics
        ensures Fixed(metrics[n], args)
      {
        ScoreAfterTwice(old(metrics[n].score), metrics[n].evaluationFn, args);
      }
    }

    /** The loop of `evaluate`: one evaluation attempt per metric, in order. */
    method EvaluateMetrics(args: Args)
      requires Valid()
      modifies metrics.Values
      ensures forall n :: n in metrics ==>
        metrics[n].score == ScoreAfter(old(metrics[n].score), metrics[n].evaluationFn, args)
      ensures forall n :: n in metrics ==>
        metrics[n].evaluationFn == old(metrics[n].evaluationFn) && metrics[n].rawResults == old(metrics[n].rawResults)
    {
      var i := 0;
      while i < |names|
        invariant 0 <= i <= |names|
        invariant forall j :: 0 <= j < i ==>
          metrics[names[j]].score == ScoreAfter(old(metrics[names[j]].score), metrics[names[j]].evaluationFn, args)
        invariant forall j :: i <= j < |names| ==> metrics[names[j]].score == old(metrics[names[j]].score)
        invariant forall n :: n in metrics ==>
          metrics[n].evaluationFn == old(metrics[n].evaluationFn) && metrics[n].rawResults == old(metrics[n].rawResults)
      {
        var m := metrics[names[i]];
        DistinctAt(names, i);
        // A failure of this metric is dropped and the loop goes on.
        var _ := m.Evaluate(args);
        i := i + 1;
      }
    }

    /** The record that `save_results` writes, built without changing any score. */
    function Record(): (rec: DimensionRecord)
      reads this, metrics.Values
      requires Valid()
      ensures rec.dimension == name && rec.dimensionWeight == weight && rec.metadata == metadata
      ensures rec.dimensionScore == Score() && 0.0 <= rec.dimensionScore <= Ceiling
      ensures rec.metrics.Keys == metrics.Keys
      ensures forall n :: n in metrics ==> rec.metrics[n] == metrics[n].ToDict()
    {
      ScoreBounds();
      DimensionRecord(name, weight, Score(), map n | n in metrics :: metrics[n].ToDict(), metadata)
    }
  }

  /** The checked constructor: refuses a weight outside [0, 1]; otherwise a new
      dimension with no metrics and no metadata. */
  method NewDimension(name: string, weight: real) returns (r: Result<Dimension>)
    ensures r.Err? <==> !InRange(weight)
    ensures r.Err? ==> r.error == WeightOutOfRange
    ensures r.Ok? ==> fresh(r.value) && r.value.Valid() && r.value.name == name && r.value.weight == weight
    ensures r.Ok? ==> r.value.metrics == map[] && r.value.names == [] && r.value.metadata == map[]
  {
    if !(0.0 <= weight <= 1.0) {
      return Err(WeightOutOfRange);
    }
    var d := new Dimension(name, weight);
    return Ok(d);
  }
}
