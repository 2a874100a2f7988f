/** The configured weights: the five dimensions of the framework and, for each,
    the weights of its metrics, together with the check that every set of
    weights adds up to 1.0 within the floating-point allowance. */
module Weights {
  import opened Aggregate
  import KnowledgeEvaluation

  /** A weight per name, in the order the configuration lists them. */
  type WeightTable = seq<(string, real)>

  const DimensionWeights: WeightTable := [
    ("knowledge_awareness", 0.25),
    ("reasoning_quality", 0.25),
    ("uncertainty_calibration", 0.20),
    ("self_monitoring", 0.15),
    ("domain_adaptation", 0.15)]

  const KnowledgeAwarenessWeights: WeightTable := [
    ("knowledge_boundary_recognition", 0.30),
    ("source_attribution", 0.25),
    ("temporal_awareness", 0.25),
    ("hallucination_rate", 0.20)]

  const ReasoningQualityWeights: WeightTable := [
    ("logical_consistency", 0.25),
    ("inference_validity", 0.25),
    ("step_completeness", 0.20),
    ("evidence_utilization", 0.15),
    ("causal_reasoning", 0.15)]

  const UncertaintyCalibrationWeights: WeightTable := [
    ("confidence_calibration", 0.35),
    ("confidence_distribution", 0.25),
    ("probabilistic_expression", 0.25),
    ("ambiguity_recognition", 0.15)]

  const SelfMonitoringWeights: WeightTable := [
    ("error_detection_rate", 0.30),
    ("verification_attempts", 0.25),
    ("alternative_solution_exploration", 0.25),
    ("assumption_declaration", 0.20)]

  const DomainAdaptationWeights: WeightTable := [
    ("domain_recognition", 0.25),
    ("terminology_precision", 0.25),
    ("method_selection", 0.25),
    ("expert_mimicry", 0.25)]

  /** The metric weights of every dimension, in the configuration's order. */
  const MetricWeights: seq<(string, WeightTable)> := [
    ("knowledge_awareness", KnowledgeAwarenessWeights),
    ("reasoning_quality", ReasoningQualityWeights),
    ("uncertainty_calibration", UncertaintyCalibrationWeights),
    ("self_monitoring", SelfMonitoringWeights),
    ("domain_adaptation", DomainAdaptationWeights)]

  /** The table as container members of score 0.0, so that the container
      arithmetic applies to it. */
  function AsWeighted(t: WeightTable): (xs: seq<Weighted>)
    ensures |xs| == |t|
    ensures forall i :: 0 <= i < |t| ==> xs[i] == Weighted(t[i].1, 0.0)
  {
    seq(|t|, i requires 0 <= i < |t| => Weighted(t[i].1, 0.0))
  }

  /** `sum(weights.values())`, accumulated front to back. */
  function Sum(t: WeightTable): real {
    TotalWeight(AsWeighted(t))
  }

  /** `abs(sum(weights.values()) - 1.0) < 1e-10`. */
  predicate SumsToOne(t: WeightTable) {
    -Tolerance < Sum(t) - 1.0 < Tolerance
  }

  /** The verdict of `validate_weights`: every set passes, or the assertion on
      the dimension weights fails, or the one on the metric weights of the
      named dimension does. */
  datatype Validation = AllValid | DimensionWeightsInvalid | MetricWeightsInvalid(dimension: string)

  /** The loop over the metric weight sets: the first set that does not sum
      to 1.0 stops it. */
  function CheckMetricWeights(ts: seq<(string, WeightTable)>): (r: Validation)
    ensures !r.DimensionWeightsInvalid?
    ensures r == AllValid <==> forall k :: 0 <= k < |ts| ==> SumsToOne(ts[k].1)
    ensures r.MetricWeightsInvalid? ==>
      exists k :: 0 <= k < |ts| && ts[k].0 == r.dimension && !SumsToOne(ts[k].1)
        && forall j :: 0 <= j < k ==> SumsToOne(ts[j].1)
  {
    if ts == [] then AllValid
    else if !SumsToOne(ts[0].1) then MetricWeightsInvalid(ts[0].0)
    else
      var r := CheckMetricWeights(ts[1..]);
      assert forall k :: 1 <= k < |ts| ==> ts[k] == ts[1..][k - 1];
      if r.MetricWeightsInvalid? then
        var k :| 0 <= k < |ts[1..]| && ts[1..][k].0 == r.dimension && !SumsToOne(ts[1..][k].1)
          && forall j :: 0 <= j < k ==> SumsToOne(ts[1..][j].1);
        assert ts[k + 1] == ts[1..][k];
        r
      else r
  }

  /** `validate_weights`: the dimension weights are checked first, then every
      set of metric weights in order. */
  function ValidateWeights(dims: WeightTable, ts: seq<(string, WeightTable)>): (r: Validation)
    ensures r == DimensionWeightsInvalid <==> !SumsToOne(dims)
    ensures r == AllValid <==> SumsToOne(dims) && forall k :: 0 <= k < |ts| ==> SumsToOne(ts[k].1)
    ensures r.MetricWeightsInvalid? ==>
      SumsToOne(dims) && exists k :: 0 <= k < |ts| && ts[k].0 == r.dimension && !SumsToOne(ts[k].1)
  {
    if !SumsToOne(dims) then DimensionWeightsInvalid else CheckMetricWeights(ts)
  }

  /** Every name occurs once and every weight lies in [0, 1]. */
  predicate WellFormed(t: WeightTable) {
    && (forall i, j :: 0 <= i < j < |t| ==> t[i].0 != t[j].0)
    && (forall i :: 0 <= i < |t| ==> 0.0 <= t[i].1 <= 1.0)
  }

  /** The sums of the four- and five-entry tables, one addition at a time. */
  lemma SumOfFour(t: WeightTable)
    requires |t| == 4
    ensures Sum(t) == t[0].1 + t[1].1 + t[2].1 + t[3].1
  {
    var xs := AsWeighted(t);
    assert xs[..0] == [] && xs[..4] == xs;
    PrefixStep(xs, 0);
    PrefixStep(xs, 1);
    PrefixStep(xs, 2);
    PrefixStep(xs, 3);
  }

  lemma SumOfFive(t: WeightTable)
    requires |t| == 5
    ensures Sum(t) == t[0].1 + t[1].1 + t[2].1 + t[3].1 + t[4].1
  {
    var xs := AsWeighted(t);
    assert xs[..0] == [] && xs[..5] == xs;
    PrefixStep(xs, 0);
    PrefixStep(xs, 1);
    PrefixStep(xs, 2);
    PrefixStep(xs, 3);
    PrefixStep(xs, 4);
  }

  /** Every configured set of weights adds up to exactly 1.0, so
      `validate_weights` passes. */
  lemma ConfiguredWeightsSumToOne()
    ensures Sum(DimensionWeights) == 1.0
    ensures forall k :: 0 <= k < |MetricWeights| ==> Sum(MetricWeights[k].1) == 1.0
    ensures ValidateWeights(DimensionWeights, MetricWeights) == AllValid
  {
    SumOfFive(DimensionWeights);
    SumOfFour(KnowledgeAwarenessWeights);
    SumOfFive(ReasoningQualityWeights);
    SumOfFour(UncertaintyCalibrationWeights);
    SumOfFour(SelfMonitoringWeights);
    SumOfFour(DomainAdaptationWeights);
  }

  /** A table of weights in [0, 1] whose names differ at position `p` is
      well formed. */
  lemma WellFormedByPosition(t: WeightTable, p: nat)
    requires forall i :: 0 <= i < |t| ==> 0.0 <= t[i].1 <= 1.0
    requires forall i :: 0 <= i < |t| ==> p < |t[i].0|
    requires forall i, j :: 0 <= i < j < |t| ==> t[i].0[p] != t[j].0[p]
    ensures WellFormed(t)
  {
  }

  /** Every configured table names each entry once, with a weight in [0, 1]. */
  lemma DimensionWeightsWellFormed()
    ensures WellFormed(DimensionWeights)
  {
    WellFormedByPosition(DimensionWeights, 0);
  }

  lemma KnowledgeAwarenessWeightsWellFormed()
    ensures WellFormed(KnowledgeAwarenessWeights)
  {
    WellFormedByPosition(KnowledgeAwarenessWeights, 0);
  }

  lemma ReasoningQualityWeightsWellFormed()
    ensures WellFormed(ReasoningQualityWeights)
  {
    WellFormedByPosition(ReasoningQualityWeights, 0);
  }

  lemma UncertaintyCalibrationWeightsWellFormed()
    ensures WellFormed(UncertaintyCalibrationWeights)
  {
    WellFormedByPosition(UncertaintyCalibrationWeights, 11);
  }

  lemma SelfMonitoringWeightsWellFormed()
    ensures WellFormed(SelfMonitoringWeights)
  {
    WellFormedByPosition(SelfMonitoringWeights, 1);
  }

  lemma DomainAdaptationWeightsWellFormed()
    ensures WellFormed(DomainAdaptationWeights)
  {
    WellFormedByPosition(DomainAdaptationWeights, 0);
  }

  /** Hence every configured table is well formed, and the metric weights are
      listed for the dimensions in the same order. */
  lemma ConfiguredWeightsWellFormed()
    ensures WellFormed(DimensionWeights)
    ensures forall k :: 0 <= k < |MetricWeights| ==> WellFormed(MetricWeights[k].1)
    ensures |MetricWeights| == |DimensionWeights|
    ensures forall k :: 0 <= k < |MetricWeights| ==> MetricWeights[k].0 == DimensionWeights[k].0
  {
    DimensionWeightsWellFormed();
    KnowledgeAwarenessWeightsWellFormed();
    ReasoningQualityWeightsWellFormed();
    UncertaintyCalibrationWeightsWellFormed();
    SelfMonitoringWeightsWellFormed();
    DomainAdaptationWeightsWellFormed();
  }

  /** The knowledge-awareness weights are the ones its evaluator registers. */
  lemma KnowledgeWeightsRegistered()
    ensures MetricWeights[0].1 == KnowledgeEvaluation.RegisteredMetrics
  {
  }

  /** Adding the entries of a table of non-negative weights that sums to 1.0
      one at a time, in order, neither the exact test `> 1.0` of BaseEvaluator
      nor the tolerant ceiling of Dimension and the framework ever refuses one. */
  lemma {:induction false} AddedInOrderAdmitted(t: WeightTable, k: int)
    requires forall i :: 0 <= i < |t| ==> 0.0 <= t[i].1
    requires Sum(t) == 1.0
    requires 0 <= k < |t|
    ensures Sum(t[..k]) + t[k].1 <= 1.0
    ensures Admits(Sum(t[..k]), t[k].1)
  {
    var xs := AsWeighted(t);
    assert xs[..k] == AsWeighted(t[..k]);
    PrefixWithinTotal(xs, k);
  }

  /** Hence the configured dimensions, and each configured set of metrics,
      can be added in the configured order. */
  lemma ConfiguredTablesAdmitted(k: int, m: int)
    requires 0 <= k < |MetricWeights| && 0 <= m < |MetricWeights[k].1|
    ensures Admits(Sum(DimensionWeights[..k]), DimensionWeights[k].1)
    ensures Sum(MetricWeights[k].1[..m]) + MetricWeights[k].1[m].1 <= 1.0
  {
    ConfiguredWeightsSumToOne();
    ConfiguredWeightsWellFormed();
    AddedInOrderAdmitted(DimensionWeights, k);
    AddedInOrderAdmitted(MetricWeights[k].1, m);
  }
}
