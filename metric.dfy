/** A Metric: a named, weighted leaf of the rubric that holds one score in
    [0, 1].  The score changes only through `Evaluate`, which refuses any value
    the attached scoring function returns outside [0, 1]; the weight is fixed at
    construction. */
module CoreMetric {
  import opened Wrappers

  /** A real number in [0, 1]: the range of every weight and score. */
  type Fraction = r: real | 0.0 <= r <= 1.0

  predicate InRange(x: real) {
    0.0 <= x <= 1.0
  }

  /** A JSON-like value: what the evidence map and the keyword arguments hold. */
  datatype Value =
    | Null
    | Bool(b: bool)
    | Num(n: real)
    | Str(s: string)
    | List(items: seq<Value>)
    | Object(fields: map<string, Value>)

  /** The positional and keyword arguments handed to a scoring function. */
  datatype Args = Args(positional: seq<Value>, named: map<string, Value>)

  /** A caller-supplied scoring function: a raw score, or the error it raised. */
  type EvalFn = Args -> Result<real>

  /** The serialised form of a metric. */
  datatype MetricRecord = MetricRecord(name: string, weight: real, score: real, rawResults: map<string, Value>)

  /** What one call of `evaluate` returns: the function's value when it is in
      [0, 1], and otherwise the error that the call raises. */
  function EvaluationResult(fn: Option<EvalFn>, args: Args): (r: Result<Fraction>)
    ensures fn.None? ==> r == Err(NoEvaluationFunction)
    ensures r.Ok? <==> fn.Some? && fn.value(args).Ok? && InRange(fn.value(args).value)
    ensures r.Ok? ==> r.value == fn.value(args).value
    ensures fn.Some? && fn.value(args).Err? ==> r == Err(fn.value(args).error)
    ensures fn.Some? && fn.value(args).Ok? && !InRange(fn.value(args).value) ==> r == Err(ScoreOutOfRange)
  {
    match fn
    case None => Err(NoEvaluationFunction)
    case Some(f) =>
      match f(args)
      case Err(e) => Err(e)
      case Ok(v) => if InRange(v) then Ok(v) else Err(ScoreOutOfRange)
  }

  /** The score a metric holds after one evaluation attempt: the new value on
      success, the previous score on any failure. */
  function ScoreAfter(prev: Fraction, fn: Option<EvalFn>, args: Args): (s: Fraction)
    ensures EvaluationResult(fn, args).Err? ==> s == prev
    ensures EvaluationResult(fn, args).Ok? ==> s == EvaluationResult(fn, args).value
    ensures s == prev || (fn.Some? && fn.value(args) == Ok(s))
  {
    match EvaluationResult(fn, args)
    case Ok(v) => v
    case Err(_) => prev
  }

  /** A second attempt with the same function and arguments leaves the score
      where the first one put it. */
  lemma ScoreAfterTwice(prev: Fraction, fn: Option<EvalFn>, args: Args)
    ensures ScoreAfter(ScoreAfter(prev, fn, args), fn, args) == ScoreAfter(prev, fn, args)
  {
  }

  class Metric {
    const name: string
    const weight: Fraction
    var evaluationFn: Option<EvalFn>
    var score: Fraction
    /** The open evidence map collected for audit. */
    var rawResults: map<string, Value>

    /** The weight is checked by `NewMetric`, which models the raising constructor. */
    constructor (name: string, weight: Fraction, evaluationFn: Option<EvalFn>)
      ensures this.name == name && this.weight == weight && this.evaluationFn == evaluationFn
      ensures score == 0.0 && rawResults == map[]
    {
      this.name := name;
      this.weight := weight;
      this.evaluationFn := evaluationFn;
      score := 0.0;
      rawResults := map[];
    }

    /** Runs the scoring function and stores its value; on any failure the
        previous score is kept. */
    method Evaluate(args: Args) returns (r: Result<Fraction>)
      modifies this`score
      ensures r == EvaluationResult(evaluationFn, args)
      ensures score == ScoreAfter(old(score), evaluationFn, args)
      ensures r.Err? ==> score == old(score)
      ensures r.Ok? ==> score == r.value
    {
      if evaluationFn.None? {
        return Err(NoEvaluationFunction);
      }
      var out := evaluationFn.value(args);
      if out.Err? {
        return Err(out.error);
      }
      var v := out.value;
      if !(0.0 <= v <= 1.0) {
        return Err(ScoreOutOfRange);
      }
      score := v;
      return Ok(v);
    }

    method SetEvaluationFunction(fn: EvalFn)
      modifies this`evaluationFn
      ensures evaluationFn == Some(fn)
    {
      evaluationFn := Some(fn);
    }

    /** Records one evidence entry; every other entry, the score and the weight stay. */
    method AddResultData(key: string, value: Value)
      modifies this`rawResults
      ensures rawResults == old(rawResults)[key := value]
      ensures forall k :: k in old(rawResults) && k != key ==> k in rawResults && rawResults[k] == old(rawResults)[k]
    {
      rawResults := rawResults[key := value];
    }

    /** The serialised metric: exactly its name, weight, score and evidence. */
    function ToDict(): (d: MetricRecord)
      reads this
      ensures d.name == name && d.weight == weight && d.score == score && d.rawResults == rawResults
      ensures InRange(d.weight) && InRange(d.score)
    {
      MetricRecord(name, weight, score, rawResults)
    }
  }

  /** The checked constructor: refuses a weight outside [0, 1]; otherwise a new
      metric with score 0.0 and an empty evidence map. */
  method NewMetric(name: string, weight: real, fn: Option<EvalFn>) returns (r: Result<Metric>)
    ensures r.Err? <==> !InRange(weight)
    ensures r.Err? ==> r.error == WeightOutOfRange
    ensures r.Ok? ==> fresh(r.value) && r.value.name == name && r.value.weight == weight
    ensures r.Ok? ==> r.value.evaluationFn == fn && r.value.score == 0.0 && r.value.rawResults == map[]
  {
    if !(0.0 <= weight <= 1.0) {
      return Err(WeightOutOfRange);
    }
    var m := new Metric(name, weight, fn);
    return Ok(m);
  }
}
