/** MetacognitiveFramework: the root container of Dimensions.  The same weight
    ceiling as inside a Dimension applies one level up; an evaluation attempts
    every dimension, computes the overall confidence score as the weighted sum
    of the dimension scores and replaces the stored result snapshot. */
module CoreFramework {
  import opened Wrappers
  import opened Aggregate
  import opened CoreMetric
  import opened CoreDimension

  /** The result of one evaluation call. */
  datatype Snapshot = Snapshot(confidenceScore: real, dimensionScores: map<string, real>, evaluationTime: string)

  /** Set once at construction; the creation time comes from the caller's clock. */
  datatype FrameworkMetadata = FrameworkMetadata(creationTime: string, description: string)

  const Description: string := "Metacognitive Analysis Framework for evaluating LLM reasoning"
  const FrameworkName: string := "Metacognitive Analysis Framework"

  /** The overall record that `save_results` writes. */
  datatype OverallRecord = OverallRecord(
    framework: string,
    confidenceScore: real,
    dimensionScores: map<string, real>,
    metadata: FrameworkMetadata,
    evaluationTime: string)

  function WeightOfDimension(d: Dimension): real {
    d.weight
  }

  function NameOfDimension(d: Dimension): string {
    d.name
  }

  /** Each named dimension's weight paired with its score in `scores`, in order. */
  function ConfidenceEntries(ns: seq<string>, ds: map<string, Dimension>, scores: map<string, real>): (es: seq<Weighted>)
    requires Covers(ns, ds) && Covers(ns, scores)
    ensures |es| == |ns|
  {
    if ns == [] then []
    else ConfidenceEntries(ns[..|ns| - 1], ds, scores) + [Weighted(ds[ns[|ns| - 1]].weight, scores[ns[|ns| - 1]])]
  }

  /** Entry `i` is the weight of the dimension named `ns[i]` and its score. */
  lemma {:induction false} ConfidenceEntriesAt(ns: seq<string>, ds: map<string, Dimension>, scores: map<string, real>)
    requires Covers(ns, ds) && Covers(ns, scores)
    ensures forall i :: 0 <= i < |ns| ==> ConfidenceEntries(ns, ds, scores)[i] == Weighted(ds[ns[i]].weight, scores[ns[i]])
  {
    if ns != [] {
      var init := ns[..|ns| - 1];
      ConfidenceEntriesAt(init, ds, scores);
      assert forall i :: 0 <= i < |init| ==> init[i] == ns[i];
    }
  }

  lemma {:induction false} ConfidenceEntriesTotalWeight(ns: seq<string>, ds: map<string, Dimension>, scores: map<string, real>)
    requires Covers(ns, ds) && Covers(ns, scores)
    ensures TotalWeight(ConfidenceEntries(ns, ds, scores)) == KeyedTotal(ns, ds, WeightOfDimension)
  {
    if ns != [] {
      var init := ns[..|ns| - 1];
      ConfidenceEntriesTotalWeight(init, ds, scores);
      assert ConfidenceEntries(ns, ds, scores)[..|ns| - 1] == ConfidenceEntries(init, ds, scores);
    }
  }

  /** Dimension scores in [0, Ceiling] under dimension weights within the
      ceiling give a confidence score in [0, Ceiling * Ceiling]. */
  lemma ConfidenceBounds(ns: seq<string>, ds: map<string, Dimension>, scores: map<string, real>)
    requires Covers(ns, ds) && Covers(ns, scores)
    requires KeyedTotal(ns, ds, WeightOfDimension) <= Ceiling
    requires forall i :: 0 <= i < |ns| ==> 0.0 <= scores[ns[i]] <= Ceiling
    ensures 0.0 <= WeightedSum(ConfidenceEntries(ns, ds, scores)) <= Ceiling * Ceiling
  {
    var es := ConfidenceEntries(ns, ds, scores);
    ConfidenceEntriesTotalWeight(ns, ds, scores);
    ConfidenceEntriesAt(ns, ds, scores);
    WeightedSumBounds(es, Ceiling);
    TotalWeightNonNegative(es);
    ProductBounds(TotalWeight(es), Ceiling, Ceiling);
  }

  /** The second loop of `evaluate`: `confidence_score += score * weight`
      over the dimensions, with the bounds the weights and scores allow. */
  method Confidence(ns: seq<string>, ds: map<string, Dimension>, scores: map<string, real>) returns (c: real)
    requires Covers(ns, ds) && Covers(ns, scores)
    requires KeyedTotal(ns, ds, WeightOfDimension) <= Ceiling
    requires forall i :: 0 <= i < |ns| ==> 0.0 <= scores[ns[i]] <= Ceiling
    ensures c == WeightedSum(ConfidenceEntries(ns, ds, scores))
    ensures 0.0 <= c <= Ceiling * Ceiling
  {
    c := Accumulate(ConfidenceEntries(ns, ds, scores));
    ConfidenceBounds(ns, ds, scores);
  }

  /** Every dimension is well formed. */
  ghost predicate AllValid(ds: map<string, Dimension>)
    reads ds.Values
  {
    forall n :: n in ds ==> ds[n].Valid()
  }

  /** No metric object is shared by two of the dimensions. */
  ghost predicate Disjoint(ds: map<string, Dimension>)
    reads ds.Values
  {
    forall a, b, m :: a in ds && b in ds && m in ds[a].metrics.Values && m in ds[b].metrics.Values ==> a == b
  }

  /** One pass of the first loop of `evaluate`: the named dimension's
      `evaluate` result, which is its new score, in [0, Ceiling], and what it
      would have returned from the state before the pass.  Only that
      dimension's metrics change, each to the score one attempt gives it, so
      one more attempt would give each of them what it gave before and would
      leave it where it is; when no metric object is shared every other
      dimension keeps its score. */
  method EvaluateDimension(ds: map<string, Dimension>, name: string, args: Args) returns (s: real)
    requires name in ds && AllValid(ds)
    modifies ds[name].metrics.Values
    ensures AllValid(ds)
    ensures s == ds[name].Score() && 0.0 <= s <= Ceiling
    ensures s == old(ds[name].ScoreOn(args))
    ensures forall o :: o in ds[name].metrics.Values ==>
      o.score == ScoreAfter(old(o.score), o.evaluationFn, args) && o.evaluationFn == old(o.evaluationFn) && o.rawResults == old(o.rawResults)
    ensures forall o :: o in ds[name].metrics.Values ==> Attempted(o, args) == old(Attempted(o, args)) && Fixed(o, args)
    ensures Disjoint(ds) ==> forall n {:trigger ds[n].Score()} :: n in ds && n != name ==> ds[n].Score() == old(ds[n].Score())
  {
    var d := ds[name];
    s := d.Evaluate(args);
    forall o | o in d.metrics.Values
      ensures o.score == ScoreAfter(old(o.score), o.evaluationFn, args) && o.evaluationFn == old(o.evaluationFn) && o.rawResults == old(o.rawResults)
      ensures Attempted(o, args) == old(Attempted(o, args)) && Fixed(o, args)
    {
      var k :| k in d.metrics && d.metrics[k] == o;
      ScoreAfterTwice(old(o.score), o.evaluationFn, args);
    }
    if Disjoint(ds) {
      forall n | n in ds && n != name
        ensures ds[n].Score() == old(ds[n].Score())
      {
        assert forall m :: m in ds[n].metrics.Values ==> m !in d.metrics.Values;
      }
    }
  }

  /** A map whose keys lie among the dimensions and include every name of
      `ns`, which lists the dimensions, has the dimensions' keys. */
  lemma SameKeys<T, U>(ns: seq<string>, ds: map<string, T>, scores: map<string, U>)
    requires forall n :: n in ds ==> n in ns
    requires forall n :: n in scores ==> n in ds
    requires forall j :: 0 <= j < |ns| ==> ns[j] in scores
    ensures scores.Keys == ds.Keys
  {
  }

  /** A map whose keys include those of a map covering `ns[..i]`, and `ns[i]`,
      covers `ns[..i + 1]`. */
  lemma CoversStep<T>(ns: seq<string>, i: int, before: map<string, T>, after: map<string, T>)
    requires 0 <= i < |ns| && Covers(ns[..i], before)
    requires ns[i] in after && forall n :: n in before ==> n in after
    ensures Covers(ns[..i + 1], after)
  {
    assert forall j :: 0 <= j < i ==> ns[..i + 1][j] == ns[..i][j];
  }

  /** Every metric object of `objs` holds its score after one attempt on
      `args` from the earlier state, and keeps its function and evidence. */
  twostate predicate MetricsAttempted(objs: set<Metric>, args: Args)
    reads objs
  {
    forall o :: o in objs ==>
      && o.score == old(ScoreAfter(o.score, o.evaluationFn, args))
      && o.evaluationFn == old(o.evaluationFn) && o.rawResults == old(o.rawResults)
  }

  /** Every metric object of every dimension lies in `objs`. */
  ghost predicate MetricsIn(ds: map<string, Dimension>, objs: set<Metric>)
    reads ds.Values
  {
    forall n, k :: n in ds && k in ds[n].metrics ==> ds[n].metrics[k] in objs
  }

  /** What one evaluation attempt on `args` gives each metric object of `objs`. */
  ghost function Attempts(objs: set<Metric>, args: Args): map<Metric, Weighted>
    reads objs
  {
    map o | o in objs :: Attempted(o, args)
  }

  /** One more attempt would still give every metric object of `objs` what
      `rec` records, and would leave those in `fixed` where they are. */
  ghost predicate Kept(objs: set<Metric>, args: Args, rec: map<Metric, Weighted>, fixed: set<Metric>)
    reads objs
  {
    forall o :: o in objs ==> o in rec && Attempted(o, args) == rec[o] && (o in fixed ==> Fixed(o, args))
  }

  /** Each dimension's `evaluate` result, read off the attempts in `rec`. */
  ghost function RecordedScores(ds: map<string, Dimension>, rec: map<Metric, Weighted>): map<string, real>
    reads ds.Values
    requires AllValid(ds) && MetricsIn(ds, rec.Keys)
  {
    map n | n in ds :: WeightedSum(Recorded(ds[n].names, ds[n].metrics, rec))
  }

  /** Before any pass, each dimension's `evaluate` result is the one read off
      the attempts about to be made. */
  lemma ResultsRecorded(ds: map<string, Dimension>, args: Args, objs: set<Metric>)
    requires AllValid(ds) && MetricsIn(ds, objs)
    ensures forall n :: n in ds ==> ds[n].ScoreOn(args) == RecordedScores(ds, Attempts(objs, args))[n]
  {
    forall n | n in ds
      ensures ds[n].ScoreOn(args) == RecordedScores(ds, Attempts(objs, args))[n]
    {
      ds[n].ScoreOnRecorded(args, Attempts(objs, args));
    }
  }

  /** A dimension whose metrics are all fixed is settled. */
  lemma SettledOnceFixed(ds: map<string, Dimension>, ks: set<string>, args: Args, objs: set<Metric>,
                         rec: map<Metric, Weighted>, fixed: set<Metric>)
    requires MetricsIn(ds, objs) && Kept(objs, args, rec, fixed)
    requires forall n :: n in ks ==> n in ds
    requires forall n :: n in ks ==> ds[n].metrics.Values <= fixed
    ensures forall n :: n in ks ==> ds[n].Settled(args)
  {
    forall n, k | n in ks && k in ds[n].metrics
      ensures Fixed(ds[n].metrics[k], args)
    {
      assert ds[n].metrics[k] in ds[n].metrics.Values;
    }
  }

  /** The dimensions' side of the first loop of `evaluate` after `i` passes:
      the dimensions named `ns[..i]` are scored, each with the result `rec`
      records for it, and their metrics are among the `fixed` ones. */
  ghost predicate Progress(ns: seq<string>, i: nat, ds: map<string, Dimension>, objs: set<Metric>,
                           rec: map<Metric, Weighted>, fixed: set<Metric>, scores: map<string, real>)
    reads ds.Values
  {
    && i <= |ns| && AllValid(ds) && MetricsIn(ds, objs) && MetricsIn(ds, rec.Keys)
    && Covers(ns[..i], scores)
    && (forall n :: n in scores ==> n in ds && 0.0 <= scores[n] <= Ceiling)
    && (forall n :: n in scores ==> scores[n] == WeightedSum(Recorded(ds[n].names, ds[n].metrics, rec)))
    && (forall n :: n in scores ==> ds[n].metrics.Values <= fixed)
  }

  /** Before the first pass nothing is scored and nothing is fixed. */
  lemma ProgressStart(ns: seq<string>, ds: map<string, Dimension>, args: Args, objs: set<Metric>)
    requires AllValid(ds) && MetricsIn(ds, objs)
    ensures Progress(ns, 0, ds, objs, Attempts(objs, args), {}, map[])
    ensures Kept(objs, args, Attempts(objs, args), {})
  {
  }

  /** Scoring `ns[i]` with its recorded result and fixing its metrics takes
      the loop from `i` passes to `i + 1`. */
  lemma ProgressStep(ns: seq<string>, i: nat, ds: map<string, Dimension>, objs: set<Metric>,
                     rec: map<Metric, Weighted>, fixed: set<Metric>, scores: map<string, real>, s: real)
    requires Covers(ns, ds) && i < |ns|
    requires Progress(ns, i, ds, objs, rec, fixed, scores)
    requires 0.0 <= s <= Ceiling && s == WeightedSum(Recorded(ds[ns[i]].names, ds[ns[i]].metrics, rec))
    ensures Progress(ns, i + 1, ds, objs, rec, fixed + ds[ns[i]].metrics.Values, scores[ns[i] := s])
  {
    CoversStep(ns, i, scores, scores[ns[i] := s]);
  }

  /** Evaluating the named dimension returns its result as `rec` records it,
      keeps `rec` a record of what one attempt gives every metric object and
      settles the dimension's metrics; every metric keeps its function and
      evidence. */
  method AttemptDimension(ds: map<string, Dimension>, name: string, args: Args, ghost objs: set<Metric>,
                          ghost rec: map<Metric, Weighted>, ghost fixed: set<Metric>)
    returns (s: real)
    requires name in ds && AllValid(ds) && MetricsIn(ds, objs)
    requires Kept(objs, args, rec, fixed)
    modifies objs
    ensures AllValid(ds)
    ensures 0.0 <= s <= Ceiling && s == WeightedSum(Recorded(ds[name].names, ds[name].metrics, rec))
    ensures Kept(objs, args, rec, fixed + ds[name].metrics.Values)
    ensures forall o :: o in objs ==> o.evaluationFn == old(o.evaluationFn) && o.rawResults == old(o.rawResults)
  {
    ds[name].ScoreOnRecorded(args, rec);
    s := EvaluateDimension(ds, name, args);
    forall o | o in objs
      ensures Attempted(o, args) == rec[o] && (o in fixed + ds[name].metrics.Values ==> Fixed(o, args))
      ensures o.evaluationFn == old(o.evaluationFn) && o.rawResults == old(o.rawResults)
    {
      if o !in ds[name].metrics.Values {
        assert Attempted(o, args) == old(Attempted(o, args)) && Fixed(o, args) == old(Fixed(o, args));
      }
    }
  }

  /** One pass of the first loop of `evaluate`: evaluating the dimension named
      `ns[i]` scores it with the result `rec` records for it and fixes its
      metrics, and the scores so far are kept. */
  method ScorePass(ns: seq<string>, i: nat, ds: map<string, Dimension>, args: Args, ghost objs: set<Metric>,
                   ghost rec: map<Metric, Weighted>, ghost fixed: set<Metric>, scores: map<string, real>)
    returns (next: map<string, real>, ghost fixed': set<Metric>)
    requires Covers(ns, ds) && i < |ns|
    requires Progress(ns, i, ds, objs, rec, fixed, scores) && Kept(objs, args, rec, fixed)
    modifies objs
    ensures Progress(ns, i + 1, ds, objs, rec, fixed', next) && Kept(objs, args, rec, fixed')
    ensures forall o :: o in objs ==> o.evaluationFn == old(o.evaluationFn) && o.rawResults == old(o.rawResults)
  {
    var s := AttemptDimension(ds, ns[i], args, objs, rec, fixed);
    fixed' := fixed + ds[ns[i]].metrics.Values;
    next := scores[ns[i] := s];
    ProgressStep(ns, i, ds, objs, rec, fixed, scores, s);
  }

  /** After the last pass every dimension is scored with its recorded result
      and is settled. */
  lemma ProgressEnd(ns: seq<string>, ds: map<string, Dimension>, args: Args, objs: set<Metric>,
                    rec: map<Metric, Weighted>, fixed: set<Metric>, scores: map<string, real>)
    requires Progress(ns, |ns|, ds, objs, rec, fixed, scores) && Kept(objs, args, rec, fixed)
    ensures Covers(ns, scores)
    ensures forall n :: n in scores ==> n in ds && 0.0 <= scores[n] <= Ceiling
    ensures forall n :: n in scores ==> scores[n] == WeightedSum(Recorded(ds[n].names, ds[n].metrics, rec))
    ensures forall n :: n in scores ==> ds[n].Settled(args) && scores[n] == ds[n].Score()
  {
    assert ns[..|ns|] == ns;
    SettledOnceFixed(ds, scores.Keys, args, objs, rec, fixed);
    forall n | n in scores
      ensures scores[n] == ds[n].Score()
    {
      ds[n].ScoreOnRecorded(args, rec);
      ds[n].SettledScore(args);
    }
  }

  /** The first loop of `evaluate`: every dimension's `evaluate` result, by
      name, in the order `ns`, each what that dimension would have returned
      had it been evaluated first, and every scored dimension settled, so its
      score is that result.  Each metric of a dimension holds its score after
      one attempt, and every metric keeps its function and evidence.  `objs`
      holds every metric object. */
  method ScoreAll(ns: seq<string>, ds: map<string, Dimension>, args: Args, ghost objs: set<Metric>)
    returns (scores: map<string, real>)
    requires Covers(ns, ds)
    requires AllValid(ds) && MetricsIn(ds, objs)
    modifies objs
    ensures AllValid(ds)
    ensures Covers(ns, scores) && forall n :: n in scores ==> n in ds
    ensures forall n :: n in scores ==> 0.0 <= scores[n] <= Ceiling
    ensures forall n :: n in scores ==> scores[n] == old(ds[n].ScoreOn(args))
    ensures forall n :: n in scores ==> ds[n].Settled(args) && scores[n] == ds[n].Score()
    ensures forall o :: o in objs ==> o.evaluationFn == old(o.evaluationFn) && o.rawResults == old(o.rawResults)
    ensures forall n, o :: n in scores && o in ds[n].metrics.Values ==>
      o.score == old(ScoreAfter(o.score, o.evaluationFn, args))
  {
    ghost var rec := Attempts(objs, args);
    assert forall o :: o in objs ==> rec[o] == old(Attempted(o, args));
    ResultsRecorded(ds, args, objs);
    ProgressStart(ns, ds, args, objs);
    ghost var fixed: set<Metric> := {};
    scores := map[];
    var i := 0;
    while i < |ns|
      invariant Progress(ns, i, ds, objs, rec, fixed, scores) && Kept(objs, args, rec, fixed)
      invariant forall o :: o in objs ==> o.evaluationFn == old(o.evaluationFn) && o.rawResults == old(o.rawResults)
    {
      scores, fixed := ScorePass(ns, i, ds, args, objs, rec, fixed, scores);
      i := i + 1;
    }
    ProgressEnd(ns, ds, args, objs, rec, fixed, scores);
    forall n, o | n in scores && o in ds[n].metrics.Values
      ensures o.score == old(ScoreAfter(o.score, o.evaluationFn, args))
    {
      var k :| k in ds[n].metrics && ds[n].metrics[k] == o;
      assert o in objs && o in fixed;
      assert Fixed(o, args) && Attempted(o, args) == rec[o];
    }
  }

  class Framework {
    var dimensions: map<string, Dimension>
    /** The dimension names in insertion order. */
    var order: seq<string>
    /** The latest snapshot; None before the first evaluation (the source's `{}`). */
    var results: Option<Snapshot>
    const metadata: FrameworkMetadata

    /** The order lists the dimension names once each, every dimension is
        stored under its own name, every dimension is well formed and the
        dimension weights stay under the ceiling. */
    ghost predicate Valid()
      reads `dimensions, `order, dimensions.Values
    {
      Table(order, dimensions, NameOfDimension, WeightOfDimension) && AllValid(dimensions)
    }

    /** Every metric object of every registered dimension. */
    ghost function MetricObjects(): set<Metric>
      reads `dimensions, dimensions.Values
    {
      set n, m | n in dimensions && m in dimensions[n].metrics.Values :: m
    }

    /** `MetricObjects` holds every metric of every dimension. */
    lemma MetricObjectsCover()
      ensures MetricsIn(dimensions, MetricObjects())
    {
      forall n, k | n in dimensions && k in dimensions[n].metrics
        ensures dimensions[n].metrics[k] in MetricObjects()
      {
        assert dimensions[n].metrics[k] in dimensions[n].metrics.Values;
      }
    }

    constructor (creationTime: string)
      ensures Valid()
      ensures dimensions == map[] && order == [] && results == None
      ensures metadata == FrameworkMetadata(creationTime, Description)
    {
      dimensions := map[];
      order := [];
      results := None;
      metadata := FrameworkMetadata(creationTime, Description);
    }

    function TotalDimensionWeight(): real
      reads `dimensions, `order, dimensions.Values
      requires Valid()
    {
      KeyedTotal(order, dimensions, WeightOfDimension)
    }

    /** Admits the dimension iff the current total plus its weight stays within
        the ceiling; a refused call leaves the dimension map unchanged. */
    method AddDimension(dimension: Dimension) returns (r: Outcome)
      requires Valid() && dimension.Valid()
      modifies this`dimensions, this`order
      ensures Valid()
      ensures r.Pass? <==> Admits(old(TotalDimensionWeight()), dimension.weight)
      ensures r.Fail? ==> r.error == WeightCeilingExceeded && dimensions == old(dimensions) && order == old(order)
      ensures r.Pass? ==> dimensions == old(dimensions)[dimension.name := dimension]
      ensures r.Pass? ==> order == if dimension.name in old(dimensions) then old(order) else old(order) + [dimension.name]
    {
      var total := TotalDimensionWeight();
      if total + dimension.weight > Ceiling {
        return Fail(WeightCeilingExceeded);
      }
      TableInsert(order, dimensions, NameOfDimension, WeightOfDimension, dimension);
      ghost var before := dimensions;
      order := Inserted(order, dimension.name);
      dimensions := dimensions[dimension.name := dimension];
      forall n | n in dimensions
        ensures dimensions[n].Valid()
      {
        if n != dimension.name {
          assert dimensions[n] == before[n];
        }
      }
      return Pass;
    }

    /** The stored dimension of that name, or None; never fails. */
    function GetDimension(name: string): (r: Option<Dimension>)
      reads this
      ensures r.Some? <==> name in dimensions
      ensures r.Some? ==> r.value == dimensions[name]
    {
      if name in dimensions then Some(dimensions[name]) else None
    }

    /** Evaluates every dimension on `(response, **kwargs)`, stores the new
        snapshot in place of the old one and returns it.  `now` is the clock
        reading stamped on the snapshot. */
    method Evaluate(response: string, kwargs: map<string, Value>, now: string) returns (snap: Snapshot)
      requires Valid()
      modifies this`results, MetricObjects()
      ensures Valid()
      ensures results == Some(snap) && snap.evaluationTime == now
      ensures snap.dimensionScores.Keys == dimensions.Keys
      ensures forall n :: n in dimensions ==> 0.0 <= snap.dimensionScores[n] <= Ceiling
      ensures forall n :: n in dimensions ==>
        snap.dimensionScores[n] == old(dimensions[n].ScoreOn(Args([Str(response)], kwargs)))
      ensures snap.confidenceScore == WeightedSum(ConfidenceEntries(order, dimensions, snap.dimensionScores))
      ensures 0.0 <= snap.confidenceScore <= Ceiling * Ceiling
      ensures MetricsAttempted(old(MetricObjects()), Args([Str(response)], kwargs))
    {
      var scores := ScoreDimensions(Args([Str(response)], kwargs));
      var confidence := Confidence(order, dimensions, scores);
      snap := Snapshot(confidence, scores, now);
      Store(snap);
    }

    /** `self.results = {...}`: the snapshot replaces the previous one. */
    method Store(snap: Snapshot)
      requires Valid()
      modifies this`results
      ensures Valid() && results == Some(snap)
    {
      results := Some(snap);
    }

    /** The first loop of `evaluate`, over the registered dimensions; only the
        metrics' scores change. */
    method ScoreDimensions(args: Args) returns (scores: map<string, real>)
      requires Valid()
      modifies MetricObjects()
      ensures Valid()
      ensures scores.Keys == dimensions.Keys
      ensures forall n :: n in scores ==> 0.0 <= scores[n] <= Ceiling
      ensures forall n :: n in scores ==> scores[n] == old(dimensions[n].ScoreOn(args))
      ensures forall n :: n in scores ==> scores[n] == dimensions[n].Score()
      ensures MetricsAttempted(old(MetricObjects()), args)
    {
      MetricObjectsCover();
      scores := ScoreAll(order, dimensions, args, MetricObjects());
      SameKeys(order, dimensions, scores);
      forall o | o in old(MetricObjects())
        ensures o.score == old(ScoreAfter(o.score, o.evaluationFn, args))
      {
        var n, m :| n in dimensions && m in dimensions[n].metrics.Values && m == o;
      }
    }

    /** The overall record: the latest snapshot's values, or confidence 0.0,
        no dimension scores and the current time before any evaluation. */
    function OverallRecordAt(now: string): (rec: OverallRecord)
      reads this
      ensures rec.framework == FrameworkName && rec.metadata == metadata
      ensures results.None? ==> rec.confidenceScore == 0.0 && rec.dimensionScores == map[] && rec.evaluationTime == now
      ensures results.Some? ==>
        && rec.confidenceScore == results.value.confidenceScore
        && rec.dimensionScores == results.value.dimensionScores
        && rec.evaluationTime == results.value.evaluationTime
    {
      match results
      case None => OverallRecord(FrameworkName, 0.0, map[], metadata, now)
      case Some(s) => OverallRecord(FrameworkName, s.confidenceScore, s.dimensionScores, metadata, s.evaluationTime)
    }
  }
}
