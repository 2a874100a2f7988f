# Metacognitive framework: the scoring and aggregation engine

This project models the scoring core of the Metacognitive Analysis Framework.
The framework grades a language model's response along a weighted rubric, and
the Dafny model proves properties of that grading.

**The tree of weights.** There are three levels.
- A `MetacognitiveFramework` holds weighted `Dimension`s.
- A `Dimension` holds weighted `Metric`s.
- A `Metric` holds one score in [0, 1], produced by a scoring function the caller supplies.

**Adding members and scoring.** On every add, a container checks that the
weights of its members stay within 1.0, with a floating-point allowance of
`1e-10`. The score of a dimension is the weighted sum of its metric scores. The
framework's confidence score is the weighted sum of its dimension scores, and
each evaluation stores a fresh snapshot of them.

**The dict-based evaluator.** `BaseEvaluator` is a second copy of the metric
machinery, kept in plain dictionaries. It has a stricter ceiling (no allowance)
and range-checked score stores. `KnowledgeAwarenessEvaluator` builds on it. It
registers four metrics:
- knowledge-boundary recognition, 0.30;
- source attribution, 0.25;
- temporal awareness, 0.25;
- hallucination rate, 0.20.

Each of the four has a scoring routine that reads the response and a data
bundle, and records counters and examples in a results ledger.

**Standalone scorers and configuration.** The standalone scorers in
`metrics.py` score a response against lists of records. The extraction
function picks factual statements out of split sentences. The weight
configuration lists the rubric's weights, and `validate_weights` checks that
every set of weights sums to 1.0.

**How the model is written.**
- Classes whose fields the source updates in place are Dafny classes: `Metric`, `Dimension`, `Framework`, `BaseEvaluator` and `KnowledgeAwarenessEvaluator`.
- Their methods say exactly how the state changes.
- Each scoring routine's loop is a method proved against a specification function. Lemmas about that function then say what the score means.
- Floating-point numbers are exact reals.
- Raised exceptions are `Result`/`Outcome` values.
- The caller's functions, clock and data bundles are parameters.

| file | module | models |
|---|---|---|
| wrappers.dfy | Wrappers | `Option`, `Result` and `Outcome` values |
| tally.dfy | Tally | counting loops and the ratio of two counts |
| text.dfy | Text | case folding, substring search, `\b`-delimited word search, excerpts, `split`, `int()` |
| phrases.dfy | Phrases | the phrase lists the scorers search for |
| aggregate.dfy | Aggregate | weighted sums, the weight ceiling and keyed containers |
| metric.py → metric.dfy | CoreMetric | `Metric` |
| dimension.py → dimension.dfy | CoreDimension | `Dimension` |
| framework.py → framework.dfy | CoreFramework | `MetacognitiveFramework` |
| base_evaluator.py → base_evaluator.dfy | BaseEvaluation | `BaseEvaluator` |
| evaluator.py → knowledge_evaluator.dfy | KnowledgeEvaluation | `KnowledgeAwarenessEvaluator` |
| metrics.py → knowledge_metrics.dfy | KnowledgeMetrics | the standalone scorers and statement extraction |
| weights.py → weights.dfy | Weights | the weight tables and `validate_weights` |

## Model

| member | source | states |
|---|---|---|
| Tally.Ratio | metacognitive_framework/dimensions/knowledge_awareness/metrics.py:182 | a count over a positive total lies in [0, 1], is 0 exactly when the count is 0 and 1 exactly when the count is the total |
| Tally.CountZeroIff | metacognitive_framework/dimensions/knowledge_awareness/metrics.py:167-182 | a counting loop ends at 0 exactly when no member passes the test |
| Tally.CountFullIff | metacognitive_framework/dimensions/knowledge_awareness/metrics.py:167-182 | a counting loop reaches the length exactly when every member passes the test |
| Tally.CountConcat | metacognitive_framework/dimensions/knowledge_awareness/evaluator.py:347-364 | counters advanced over two batches count both batches |
| Tally.AnyFromIff | metacognitive_framework/dimensions/knowledge_awareness/evaluator.py:208-217 | the `for … break` scan succeeds exactly when some index passes |
| Text.Lower | metacognitive_framework/dimensions/knowledge_awareness/metrics.py:45 | `lower()` keeps the length and folds every character on its own |
| Text.FindCIFirst | metacognitive_framework/dimensions/knowledge_awareness/evaluator.py:189 | `lower().find` returns an index exactly when the folded text contains the folded pattern, and returns the first such index |
| Text.FindFromFirst | metacognitive_framework/dimensions/knowledge_awareness/evaluator.py:189 | the scan stops at the first occurrence and returns -1 exactly when there is none |
| Text.MissingCharExcludes | metacognitive_framework/dimensions/knowledge_awareness/metrics.py:45 | a text lacking one of the pattern's characters does not contain the pattern |
| Text.MentionsWordIff | metacognitive_framework/dimensions/knowledge_awareness/evaluator.py:185 | the `\b…\b` case-insensitive search succeeds exactly when some position holds the word between two word boundaries |
| Text.Excerpt | metacognitive_framework/dimensions/knowledge_awareness/evaluator.py:142 | a text within the limit is kept whole; a longer one is cut to the limit and followed by "..." |
| Text.WordCount | metacognitive_framework/dimensions/knowledge_awareness/metrics.py:214 | `len(s.split())` is at most the length of the text |
| Text.WordCountStarts | metacognitive_framework/dimensions/knowledge_awareness/metrics.py:214 | `len(s.split())` is the number of positions where a word starts: a non-space character at the start or after a space |
| Text.SplitJoin | metacognitive_framework/dimensions/knowledge_awareness/evaluator.py:256 | joining the parts of `split('-')` with '-' gives the date string back |
| Text.SplitPartsLackSeparator | metacognitive_framework/dimensions/knowledge_awareness/evaluator.py:256 | no part of `split('-')` holds a '-' |
| Text.ParseDecimal | metacognitive_framework/dimensions/knowledge_awareness/evaluator.py:256 | `int()` reads back the decimal rendering of every natural number |
| Text.TrimStart | metacognitive_framework/dimensions/knowledge_awareness/evaluator.py:256 | the whitespace `int()` skips in front is gone: the result does not start with a space |
| Text.TrimStartSuffix | metacognitive_framework/dimensions/knowledge_awareness/evaluator.py:256 | the front trim keeps a suffix of the text and cuts off only whitespace |
| Text.TrimEnd | metacognitive_framework/dimensions/knowledge_awareness/evaluator.py:256 | the whitespace `int()` skips behind is gone: the result does not end with a space |
| Text.TrimEndPrefix | metacognitive_framework/dimensions/knowledge_awareness/evaluator.py:256 | the back trim keeps a prefix of the text and cuts off only whitespace |
| Aggregate.Accumulate | metacognitive_framework/core/dimension.py:58-62 | the loop `total += score * weight` computes the weighted sum of the members |
| Aggregate.WeightedSumBounds | metacognitive_framework/core/dimension.py:58-62 | with non-negative weights and scores in [0, b], the weighted sum lies in [0, b times the total weight] |
| Aggregate.ScoreBelowTotal | metacognitive_framework/core/dimension.py:58-62 | scores in [0, 1] give a weighted sum between 0 and the total weight |
| Aggregate.PrefixWithinTotal | metacognitive_framework/config/weights.py:15-51 | adding a table with non-negative weights one member at a time never passes the table's own total |
| Aggregate.KeyedTotalReplace | metacognitive_framework/core/dimension.py:42-46 | storing over an existing key changes the total weight by the new weight minus the old one |
| Aggregate.KeyedTotalExtend | metacognitive_framework/core/dimension.py:42-46 | storing under a new key adds its weight to the total |
| Aggregate.Inserted | metacognitive_framework/core/dimension.py:46 | after a dict store, the key order holds the old keys and the stored key, and nothing else |
| Aggregate.DistinctAt | metacognitive_framework/core/dimension.py:74 | in a key order without repeats, the key at one position occurs at no other, so the loop over `self.metrics.values()` meets each metric once |
| Aggregate.InsertedLists | metacognitive_framework/core/dimension.py:46 | a dict store keeps the key order listing every key exactly once |
| Aggregate.TableInsert | metacognitive_framework/core/dimension.py:42-46 | storing a member the ceiling admits keeps the container's bookkeeping: names once each, every member under its own name, weights within the ceiling |
| CoreMetric.EvaluationResult | metacognitive_framework/core/metric.py:34-53 | no function gives the missing-function error; an error the function raises passes through; a value outside [0, 1] gives the out-of-range error; the call succeeds exactly when the value is in [0, 1], and returns it |
| CoreMetric.ScoreAfter | metacognitive_framework/core/metric.py:47-53 | after an attempt, the score is the new value on success and the previous score on any failure |
| CoreMetric.Metric.constructor | metacognitive_framework/core/metric.py:15-32 | a new metric keeps its name, weight and function, with score 0.0 and no evidence |
| CoreMetric.Metric.Evaluate | metacognitive_framework/core/metric.py:34-53 | returns the call's result; the score changes exactly on success, to the returned value |
| CoreMetric.Metric.SetEvaluationFunction | metacognitive_framework/core/metric.py:55-62 | the metric now holds the given function |
| CoreMetric.Metric.AddResultData | metacognitive_framework/core/metric.py:64-72 | stores one evidence entry; every other entry stays |
| CoreMetric.Metric.ToDict | metacognitive_framework/core/metric.py:74-86 | the record holds exactly the name, weight, score and evidence; the weight and score are in [0, 1] |
| CoreMetric.NewMetric | metacognitive_framework/core/metric.py:15-32 | the constructor refuses exactly the weights outside [0, 1]; otherwise it returns a fresh metric with score 0.0 and no evidence |
| CoreDimension.EntriesAt | metacognitive_framework/core/dimension.py:59-61 | the weighted sum sees each metric's weight and current score, in insertion order |
| CoreDimension.EntriesTotalWeight | metacognitive_framework/core/dimension.py:42 | the entries weigh what `sum(m.weight for m in metrics.values())` weighs; weights are non-negative and scores in [0, 1] |
| CoreDimension.Dimension.constructor | metacognitive_framework/core/dimension.py:17-32 | a new dimension has no metrics and no metadata, and is well formed |
| CoreDimension.Dimension.EmptyIffNoNames | metacognitive_framework/core/dimension.py:55-56 | a dimension has no metrics exactly when its name order is empty, so the `if not self.metrics` branch and the empty sum agree |
| CoreDimension.Dimension.ScoreBounds | metacognitive_framework/core/dimension.py:48-62 | the dimension score lies between 0 and the total metric weight, which stays within the ceiling |
| CoreDimension.Dimension.AddMetric | metacognitive_framework/core/dimension.py:34-46 | admitted exactly when the current total plus the new weight stays within 1.0 + 1e-10; a refusal changes nothing; an admission stores the metric under its name, in insertion order |
| CoreDimension.Dimension.CalculateScore | metacognitive_framework/core/dimension.py:48-62 | returns the weighted sum of the metric scores, which lies in [0, total weight], and changes nothing |
| CoreDimension.Dimension.Evaluate | metacognitive_framework/core/dimension.py:64-82 | every metric holds its score after one attempt; a failing metric keeps its old score while the others are still attempted; functions and evidence stay; returns the new dimension score, which is what `ScoreOn` gives on the state before the call; afterwards every metric is settled, so another attempt on the same arguments would leave it where it is |
| CoreMetric.ScoreAfterTwice | metacognitive_framework/core/metric.py:47-53 | a second attempt with the same function and arguments leaves the score where the first attempt put it |
| CoreDimension.EntriesAfterAt | metacognitive_framework/core/dimension.py:74-77 | entry i of the attempted entries pairs the i-th metric's weight with its score after one attempt |
| CoreDimension.EntriesAfterRecorded | metacognitive_framework/core/dimension.py:74-80 | the attempted entries are those a record of one attempt per metric object gives, so two names bound to one object see the same attempt |
| CoreDimension.EntriesSettled | metacognitive_framework/core/dimension.py:58-62 | when another attempt would leave every metric where it is, the attempted entries are the current ones |
| CoreDimension.Dimension.ScoreOnRecorded | metacognitive_framework/core/dimension.py:64-82 | what `evaluate` would return on the arguments is the weighted sum of the recorded attempts |
| CoreDimension.Dimension.SettledScore | metacognitive_framework/core/dimension.py:82 | once every metric is settled on the arguments, the dimension score is what `evaluate` on them returns |
| CoreDimension.Dimension.EvaluateMetrics | metacognitive_framework/core/dimension.py:74-80 | the loop leaves each metric with its score after one attempt |
| CoreDimension.Dimension.Record | metacognitive_framework/core/dimension.py:94-100 | the saved record holds the name, weight, metadata and score, and each metric's `to_dict` under its name |
| CoreDimension.NewDimension | metacognitive_framework/core/dimension.py:17-32 | the constructor refuses exactly the weights outside [0, 1]; otherwise it returns an empty dimension |
| BaseEvaluation.EntriesOf | metacognitive_framework/core/base_evaluator.py:74-77 | entry i is the stored weight and score of the i-th metric name |
| BaseEvaluation.EntriesOfTotalWeight | metacognitive_framework/core/base_evaluator.py:39 | the entries weigh what the sum of `metric['weight']` weighs |
| BaseEvaluation.InsertKeepsScoreTable | metacognitive_framework/core/base_evaluator.py:45 | storing an entry whose score is in [0, 1] keeps the table's names once each and its scores in [0, 1] |
| BaseEvaluation.AdmissionKeepsBound | metacognitive_framework/core/base_evaluator.py:39-45 | a non-negative weight that passes the exact test `> 1.0` keeps the total within 1.0, whether the name is new or replaced |
| BaseEvaluation.BaseEvaluator.constructor | metacognitive_framework/core/base_evaluator.py:18-29 | a new evaluator has no metrics |
| BaseEvaluation.BaseEvaluator.ScoreInUnit | metacognitive_framework/core/base_evaluator.py:63-77 | with non-negative weights within 1.0, the dimension score lies in [0, total weight] and within [0, 1] |
| BaseEvaluation.BaseEvaluator.EmptyIffNoNames | metacognitive_framework/core/base_evaluator.py:70-71 | no metrics exactly when the name order is empty |
| BaseEvaluation.BaseEvaluator.AddMetric | metacognitive_framework/core/base_evaluator.py:31-45 | admitted exactly when the current total plus the weight is at most 1.0; a refusal changes nothing; an admission stores the weight with score 0.0; a bounded table stays bounded |
| BaseEvaluation.BaseEvaluator.SetMetricScore | metacognitive_framework/core/base_evaluator.py:47-61 | an unknown name and an out-of-range score are each refused with their own error and change nothing; otherwise only that metric's score changes; the total weight never changes |
| BaseEvaluation.BaseEvaluator.CalculateDimensionScore | metacognitive_framework/core/base_evaluator.py:63-77 | returns the weighted sum of the metric scores, 0.0 with no metrics, and changes nothing |
| BaseEvaluation.BaseEvaluator.Record | metacognitive_framework/core/base_evaluator.py:104-110 | the saved record holds the name, weight, score, metrics and the subclass's ledger |
| KnowledgeMetrics.KnowledgeBoundaryRecognition | metacognitive_framework/dimensions/knowledge_awareness/metrics.py:11-51 | the loop computes the boundary score: 0.0 with no questions, 1.0 with none unanswerable, otherwise the share acknowledged |
| KnowledgeMetrics.BoundaryRecognitionAllOrNothing | metacognitive_framework/dimensions/knowledge_awareness/metrics.py:39-51 | as the phrase test reads only the response, the score is 0.0 or 1.0, and 1.0 exactly when there are questions and either none is unanswerable or the response admits not knowing |
| KnowledgeMetrics.SourceAttribution | metacognitive_framework/dimensions/knowledge_awareness/metrics.py:54-102 | the loop computes 60% citation accuracy plus 40% fabrication avoidance, over all facts |
| KnowledgeMetrics.SourceAttributionInUnit | metacognitive_framework/dimensions/knowledge_awareness/metrics.py:99-102 | the score lies in [0, 1]; with facts it is 1.0 exactly when every fact is cited with its correct source and none is paired with a wrong one; it is 0.0 exactly when no fact is cited and every fact is skipped or fabricated |
| KnowledgeMetrics.TemporalAwarenessScore | metacognitive_framework/dimensions/knowledge_awareness/metrics.py:120-151 | the share of events handled correctly lies in [0, 1], and is 0.0 with no events |
| KnowledgeMetrics.TemporalAwareness | metacognitive_framework/dimensions/knowledge_awareness/metrics.py:105-151 | the loop computes the temporal score |
| KnowledgeMetrics.HallucinationScore | metacognitive_framework/dimensions/knowledge_awareness/metrics.py:167-182 | the share of confirmed statements lies in [0, 1], and is 0.0 with no records |
| KnowledgeMetrics.HallucinationRate | metacognitive_framework/dimensions/knowledge_awareness/metrics.py:154-182 | the loop computes the hallucination score |
| KnowledgeMetrics.UnmentionedNeverCounts | metacognitive_framework/dimensions/knowledge_awareness/metrics.py:177 | statements that do not occur in the response score 0.0, whatever their mark |
| KnowledgeMetrics.Factual | metacognitive_framework/dimensions/knowledge_awareness/metrics.py:202-217 | every kept sentence passes the filters: not a question or exclamation, no opinion marker, at least five words |
| KnowledgeMetrics.FactualIsSubsequence | metacognitive_framework/dimensions/knowledge_awareness/metrics.py:202-217 | the kept sentences appear in the input, in the input's order |
| KnowledgeMetrics.FactualPrefix | metacognitive_framework/dimensions/knowledge_awareness/metrics.py:202-217 | filtering a prefix of the sentences gives a prefix of the filtered sentences |
| KnowledgeMetrics.ExtractFactualStatements | metacognitive_framework/dimensions/knowledge_awareness/metrics.py:185-222 | the loop returns the first factual sentences, as many as the cap allows, or all of them when there are fewer |
| KnowledgeMetrics.ExtractionLength | metacognitive_framework/dimensions/knowledge_awareness/metrics.py:217-220 | at most `max_statements` statements when that is positive; since the cap is tested only after an append, a cap of zero or less still returns the first factual sentence |
| KnowledgeEvaluation.BoundaryScore | metacognitive_framework/dimensions/knowledge_awareness/evaluator.py:118-156 | 0.0 or 1.0, and 0.0 exactly for an unanswerable question that the response does not meet with an uncertainty phrase |
| KnowledgeEvaluation.BoundaryStep | metacognitive_framework/dimensions/knowledge_awareness/evaluator.py:122-152 | every question counts; only an unanswerable one adds an example and exactly one verdict counter; the ledger stays consistent |
| KnowledgeEvaluation.BoundaryRoutine | metacognitive_framework/dimensions/knowledge_awareness/evaluator.py:104-156 | returns the boundary score and the ledger after the question |
| KnowledgeEvaluation.Window | metacognitive_framework/dimensions/knowledge_awareness/evaluator.py:192 | the context cut around the fact lies within the response |
| KnowledgeEvaluation.FabricatedNearIff | metacognitive_framework/dimensions/knowledge_awareness/evaluator.py:206-217 | the fabricated flag holds exactly when some candidate other than the correct source is named as a word near the fact |
| KnowledgeEvaluation.SearchFabricated | metacognitive_framework/dimensions/knowledge_awareness/evaluator.py:206-217 | the scan over `all_possible_sources` returns the fabricated flag |
| KnowledgeEvaluation.JudgeFact | metacognitive_framework/dimensions/knowledge_awareness/evaluator.py:181-225 | one pass of the loop over facts records that fact's example |
| KnowledgeEvaluation.TallyFact | metacognitive_framework/dimensions/knowledge_awareness/evaluator.py:194-225 | tallying one more example gives the ledger tallied over the longer list: a found source adds to the correct counter and the running score, a fabricated one to the fabricated counter, and the example is appended |
| KnowledgeEvaluation.Outcomes | metacognitive_framework/dimensions/knowledge_awareness/evaluator.py:181-225 | one example per fact |
| KnowledgeEvaluation.OutcomesAt | metacognitive_framework/dimensions/knowledge_awareness/evaluator.py:181-225 | example i is the example of fact i |
| KnowledgeEvaluation.FactOutcomeMeaning | metacognitive_framework/dimensions/knowledge_awareness/evaluator.py:181-225 | a found example names the fact's correct, non-empty source, which the response and the kept context both name as a word, in a response containing the fact; otherwise the example keeps the expected source and a flag that holds exactly when another candidate is named near the fact |
| KnowledgeEvaluation.AttributionScore | metacognitive_framework/dimensions/knowledge_awareness/evaluator.py:171-231 | the score lies in [0, 1], and is 0.0 with no facts |
| KnowledgeEvaluation.AttributionScoreMeaning | metacognitive_framework/dimensions/knowledge_awareness/evaluator.py:227-231 | with facts to judge, 1.0 exactly when every fact's source is found near it and 0.0 exactly when none is |
| KnowledgeEvaluation.AttributionStep | metacognitive_framework/dimensions/knowledge_awareness/evaluator.py:175-225 | no facts leave the ledger unchanged; otherwise the total advances by the number of facts with one example per fact; the ledger stays consistent |
| KnowledgeEvaluation.AttributionRoutine | metacognitive_framework/dimensions/knowledge_awareness/evaluator.py:158-231 | returns the attribution score and the ledger after the facts |
| KnowledgeEvaluation.ParseAll | metacognitive_framework/dimensions/knowledge_awareness/evaluator.py:256-257 | `list(map(int, parts))` succeeds exactly when every part parses, and keeps one number per part |
| KnowledgeEvaluation.DateParts | metacognitive_framework/dimensions/knowledge_awareness/evaluator.py:256-257 | a parsed date has at least one component |
| KnowledgeEvaluation.PrecedesIsLexicographic | metacognitive_framework/dimensions/knowledge_awareness/evaluator.py:260-265 | on dates with three components, the comparison is the lexicographic order of (year, month, day), the day compared with `<=` |
| KnowledgeEvaluation.YearDecides | metacognitive_framework/dimensions/knowledge_awareness/evaluator.py:260-265 | different years decide the comparison even when the month or day is missing |
| KnowledgeEvaluation.TemporalScore | metacognitive_framework/dimensions/knowledge_awareness/evaluator.py:255-326 | 0.0 or 1.0, and 1.0 exactly when the dates compare and the verdict is correct: a limitation acknowledged after the cutoff, no misplaced uncertainty before it |
| KnowledgeEvaluation.TemporalStep | metacognitive_framework/dimensions/knowledge_awareness/evaluator.py:266-326 | dates that do not compare leave the ledger unchanged; otherwise the event counts once; the ledger stays consistent |
| KnowledgeEvaluation.TemporalRoutine | metacognitive_framework/dimensions/knowledge_awareness/evaluator.py:233-326 | returns the temporal score and the ledger after the event |
| KnowledgeEvaluation.StatementExamples | metacognitive_framework/dimensions/knowledge_awareness/evaluator.py:359-364 | one example per statement, holding the statement, its ground-truth mark and the 50-character excerpt |
| KnowledgeEvaluation.StatementExamplesCount | metacognitive_framework/dimensions/knowledge_awareness/evaluator.py:350-357 | the examples marked correct are as many as the statements the ground truth marks true |
| KnowledgeEvaluation.HallucinationScore | metacognitive_framework/dimensions/knowledge_awareness/evaluator.py:341-370 | the score lies in [0, 1], and is 0.0 with no statements |
| KnowledgeEvaluation.HallucinationScoreMeaning | metacognitive_framework/dimensions/knowledge_awareness/evaluator.py:349-370 | with statements, 1.0 exactly when every statement is marked true and 0.0 exactly when none is |
| KnowledgeEvaluation.HallucinationStep | metacognitive_framework/dimensions/knowledge_awareness/evaluator.py:347-364 | no statements leave the ledger unchanged; otherwise the correct and incorrect counters together advance by the number of statements; the ledger stays consistent |
| KnowledgeEvaluation.HallucinationRoutine | metacognitive_framework/dimensions/knowledge_awareness/evaluator.py:328-370 | returns the hallucination score and the ledger after the statements |
| KnowledgeEvaluation.StoreIf | metacognitive_framework/dimensions/knowledge_awareness/evaluator.py:85-99 | storing a present score changes only that metric's score; the keys and weights stay |
| KnowledgeEvaluation.ScoresAfterEntries | metacognitive_framework/dimensions/knowledge_awareness/evaluator.py:85-99 | after `evaluate`, every metric with a bundle holds its routine's score and every other one its old score; the keys and weights stay |
| KnowledgeEvaluation.LedgerAfterValid | metacognitive_framework/dimensions/knowledge_awareness/evaluator.py:85-99 | the ledger's counters keep agreeing with its examples through `evaluate` |
| KnowledgeEvaluation.Register | metacognitive_framework/dimensions/knowledge_awareness/evaluator.py:31-34 | one registration of a new name within the ceiling appends it with score 0.0 |
| KnowledgeEvaluation.RegisterAll | metacognitive_framework/dimensions/knowledge_awareness/evaluator.py:31-34 | the four registrations are all admitted, in order, and fill the weight budget exactly |
| KnowledgeEvaluation.RegisteredScore | metacognitive_framework/core/base_evaluator.py:70-77 | with the registered weights, the dimension score is 0.30, 0.25, 0.25 and 0.20 times the four metric scores |
| KnowledgeEvaluation.FirstEvaluationScore | metacognitive_framework/dimensions/knowledge_awareness/evaluator.py:85-102 | the first `evaluate` on a new evaluator scores 30% boundary, 25% attribution, 25% temporal and 20% hallucination, with a missing bundle counting 0.0 |
| KnowledgeEvaluation.KnowledgeAwarenessEvaluator.constructor | metacognitive_framework/dimensions/knowledge_awareness/evaluator.py:21-62 | the four metrics registered with their weights and score 0.0, and an empty ledger |
| KnowledgeEvaluation.KnowledgeAwarenessEvaluator.EvaluateKnowledgeBoundary | metacognitive_framework/dimensions/knowledge_awareness/evaluator.py:104-156 | returns the boundary score; only the boundary part of the ledger changes |
| KnowledgeEvaluation.KnowledgeAwarenessEvaluator.EvaluateSourceAttribution | metacognitive_framework/dimensions/knowledge_awareness/evaluator.py:158-231 | returns the attribution score; only the attribution part of the ledger changes |
| KnowledgeEvaluation.KnowledgeAwarenessEvaluator.EvaluateTemporalAwareness | metacognitive_framework/dimensions/knowledge_awareness/evaluator.py:233-326 | returns the temporal score; only the temporal part of the ledger changes |
| KnowledgeEvaluation.KnowledgeAwarenessEvaluator.EvaluateHallucinationRate | metacognitive_framework/dimensions/knowledge_awareness/evaluator.py:328-370 | returns the hallucination score; only the hallucination part of the ledger changes |
| KnowledgeEvaluation.KnowledgeAwarenessEvaluator.StoreScore | metacognitive_framework/dimensions/knowledge_awareness/evaluator.py:87 | a routine's score is stored on its metric, and `set_metric_score` never refuses it |
| KnowledgeEvaluation.KnowledgeAwarenessEvaluator.RunBoundary | metacognitive_framework/dimensions/knowledge_awareness/evaluator.py:85-87 | with a bundle, the routine runs and its score is stored; without one, nothing changes |
| KnowledgeEvaluation.KnowledgeAwarenessEvaluator.RunAttribution | metacognitive_framework/dimensions/knowledge_awareness/evaluator.py:89-91 | with a bundle, the routine runs and its score is stored; without one, nothing changes |
| KnowledgeEvaluation.KnowledgeAwarenessEvaluator.RunTemporal | metacognitive_framework/dimensions/knowledge_awareness/evaluator.py:93-95 | with a bundle, the routine runs and its score is stored; without one, nothing changes |
| KnowledgeEvaluation.KnowledgeAwarenessEvaluator.RunHallucination | metacognitive_framework/dimensions/knowledge_awareness/evaluator.py:97-99 | with a bundle, the routine runs and its score is stored; without one, nothing changes |
| KnowledgeEvaluation.KnowledgeAwarenessEvaluator.Evaluate | metacognitive_framework/dimensions/knowledge_awareness/evaluator.py:64-102 | the ledger and the stored scores become those of the present bundles' routines; returns the dimension score, in [0, 1] |
| KnowledgeEvaluation.KnowledgeAwarenessEvaluator.Record | metacognitive_framework/core/base_evaluator.py:104-110 | the saved record holds the evaluator's name, score in [0, 1], metrics and ledger |
| CoreFramework.ConfidenceEntriesAt | metacognitive_framework/core/framework.py:72-73 | entry i pairs the weight of the i-th dimension with its stored score |
| CoreFramework.ConfidenceEntriesTotalWeight | metacognitive_framework/core/framework.py:36 | the entries weigh what the dimensions' weights sum to |
| CoreFramework.ConfidenceBounds | metacognitive_framework/core/framework.py:70-73 | dimension scores within the ceiling, under dimension weights within the ceiling, give a confidence score in [0, ceiling squared] |
| CoreFramework.EvaluateDimension | metacognitive_framework/core/framework.py:66-68 | the named dimension's `evaluate` returns its new score, within the ceiling, equal to what it would have returned on the state before the pass; only its metric objects change: each moves to its score after one attempt, keeps its function and evidence, and is then settled; when no metric object is shared, every other dimension keeps its score |
| CoreFramework.ResultsRecorded | metacognitive_framework/core/framework.py:65-67 | before the first loop, each dimension's `evaluate` result is the one read off the attempts about to be made |
| CoreFramework.SettledOnceFixed | metacognitive_framework/core/framework.py:66-67 | a dimension whose metric objects are all settled is settled |
| CoreFramework.ProgressStart | metacognitive_framework/core/framework.py:65 | the empty score map, with the attempts about to be made recorded, is the loop state before the first pass |
| CoreFramework.ProgressStep | metacognitive_framework/core/framework.py:66-68 | storing the pass's recorded result under the dimension's name, and settling its metrics, takes the loop state from i passes to i + 1 |
| CoreFramework.AttemptDimension | metacognitive_framework/core/framework.py:67 | evaluating the dimension returns the result recorded for it, settles its metrics, keeps the record of attempts valid for every metric, and leaves every metric its function and evidence |
| CoreFramework.ScorePass | metacognitive_framework/core/framework.py:66-68 | one pass scores the dimension with its recorded result and settles its metrics; earlier scores and the record of attempts stay valid; every metric keeps its function and evidence |
| CoreFramework.ProgressEnd | metacognitive_framework/core/framework.py:65-68 | after the last pass every dimension is scored with its recorded result, is settled, and its score equals the stored value |
| CoreFramework.CoversStep | metacognitive_framework/core/framework.py:66-68 | after a pass, the stored scores cover the dimensions visited so far |
| CoreFramework.ScoreAll | metacognitive_framework/core/framework.py:65-68 | the first loop stores one score under each dimension's name and under no other name, each within the ceiling and equal to what that dimension's `evaluate` would have returned on the state before the loop, even when dimensions share metric objects; afterwards every dimension is settled and its score equals the stored value; every metric of a dimension holds its score after one attempt from the state before the loop, and every metric keeps its function and evidence |
| CoreFramework.Confidence | metacognitive_framework/core/framework.py:70-73 | the second loop yields the weighted sum of the dimension scores, in [0, ceiling squared] |
| CoreFramework.Framework.constructor | metacognitive_framework/core/framework.py:19-26 | no dimensions, no results, and the metadata with the caller's creation time and the fixed description |
| CoreFramework.Framework.AddDimension | metacognitive_framework/core/framework.py:28-40 | admitted exactly when the current total plus the new weight stays within 1.0 + 1e-10; a refusal changes nothing; an admission stores the dimension under its name, in insertion order |
| CoreFramework.Framework.GetDimension | metacognitive_framework/core/framework.py:42-52 | the dimension of that name exactly when one is stored, otherwise None |
| CoreFramework.Framework.ScoreDimensions | metacognitive_framework/core/framework.py:65-68 | one score per registered dimension, each within the ceiling, each the dimension's `evaluate` result on the state before the call and its score after it; every metric holds its score after one attempt from the state before the call and keeps its function and evidence |
| CoreFramework.Framework.Evaluate | metacognitive_framework/core/framework.py:54-82 | the new snapshot replaces the results and is returned; it holds a score within the ceiling for every dimension, each what that dimension's `evaluate` returns on `(response, **kwargs)` from the state before the call, a confidence score equal to the weighted sum of those scores and within the ceiling squared, and the caller's time; every metric holds its score after one attempt on `(response, **kwargs)` from the state before the call and keeps its function and evidence |
| CoreFramework.Framework.Store | metacognitive_framework/core/framework.py:75-80 | the snapshot replaces the previous results and the framework stays well formed |
| CoreFramework.Framework.OverallRecordAt | metacognitive_framework/core/framework.py:97-103 | the overall record holds the latest snapshot's values, or confidence 0.0, no scores and the current time before any evaluation |
| Weights.AsWeighted | metacognitive_framework/config/weights.py:56 | one member per table entry, holding its weight |
| Weights.CheckMetricWeights | metacognitive_framework/config/weights.py:58-59 | passes exactly when every metric weight set sums to 1.0; a failure names a set that does not, every earlier one passing |
| Weights.ValidateWeights | metacognitive_framework/config/weights.py:54-61 | the dimension-weight assertion fails exactly when those weights miss 1.0; validation passes exactly when every set sums to 1.0 |
| Weights.ConfiguredWeightsSumToOne | metacognitive_framework/config/weights.py:6-51 | every configured table sums to exactly 1.0, so `validate_weights` passes |
| Weights.WellFormedByPosition | metacognitive_framework/config/weights.py:6-51 | a table of weights in [0, 1] whose names differ at one position names every entry once |
| Weights.DimensionWeightsWellFormed | metacognitive_framework/config/weights.py:6-12 | the dimension table names each dimension once, with a weight in [0, 1] |
| Weights.KnowledgeAwarenessWeightsWellFormed | metacognitive_framework/config/weights.py:16-21 | the knowledge-awareness table names each metric once, with a weight in [0, 1] |
| Weights.ReasoningQualityWeightsWellFormed | metacognitive_framework/config/weights.py:23-29 | the reasoning-quality table names each metric once, with a weight in [0, 1] |
| Weights.UncertaintyCalibrationWeightsWellFormed | metacognitive_framework/config/weights.py:31-36 | the uncertainty-calibration table names each metric once, with a weight in [0, 1] |
| Weights.SelfMonitoringWeightsWellFormed | metacognitive_framework/config/weights.py:38-43 | the self-monitoring table names each metric once, with a weight in [0, 1] |
| Weights.DomainAdaptationWeightsWellFormed | metacognitive_framework/config/weights.py:45-50 | the domain-adaptation table names each metric once, with a weight in [0, 1] |
| Weights.ConfiguredWeightsWellFormed | metacognitive_framework/config/weights.py:6-51 | every table is well formed, and the metric tables follow the dimension table's order |
| Weights.KnowledgeWeightsRegistered | metacognitive_framework/config/weights.py:16-21 | the configured knowledge-awareness weights are the ones the evaluator registers |
| Weights.AddedInOrderAdmitted | metacognitive_framework/config/weights.py:6-51 | adding a table that sums to 1.0 one entry at a time passes both the exact ceiling and the tolerant one |
| Weights.ConfiguredTablesAdmitted | metacognitive_framework/config/weights.py:6-51 | the configured dimensions, and each configured metric set, can be added in order without a refusal |

## Left out

- CoreFramework.Framework.Evaluate: states that each snapshot score is its dimension's `evaluate` result on the state before the call, but not that it equals the dimension's score after the call. `CoreFramework.Framework.ScoreDimensions` states that equality. Carrying it past the store of the snapshot exceeds the verifier's resource limit.
- Floating point: weights and scores are exact reals. Rounding in the weighted sums, the ratios and the `1e-10` allowance is not modelled.
- Case folding, `\w`, `\b` and whitespace are ASCII only. Python's Unicode rules are not modelled.
- The uncertainty and temporal phrases are passed to `re.search` as patterns. The model matches them as literal text, which is the same for the configured phrases: they contain no metacharacter except the apostrophe.
- `re.split(r'(?<=[.!?])\s+', text)` in `extract_factual_statements`: the sentences are an input of `KnowledgeMetrics.ExtractFactualStatements`. The regular-expression split itself is not modelled.
- `int()` accepts ASCII digits only. Non-ASCII Unicode digits are not modelled.
- Data bundles are typed records whose missing keys take the source's defaults. The ground-truth map takes boolean values only, not arbitrary truthy values.
- An empty data bundle is falsy in Python, so `evaluate` skips it. The model writes a skipped bundle as `None`.
- The metric `evaluate` forwards arbitrary `*args, **kwargs`. The model passes one `Args` value and gives the scoring function as a mathematical function from arguments to a result.
- BaseEvaluation.BaseEvaluator.AddMetric: as in the source, negative weights pass the ceiling test. The bound on the dimension score therefore holds only for non-negative weights (`Bounded`).
- `save_results` of all four classes: directory creation, file naming and JSON writing are left out, because they are file I/O. The records they write are modelled (`Record`, `OverallRecordAt`).
- Clocks: the creation and evaluation timestamps are parameters.
- `print` in `validate_weights` is left out, because it is output only. A failed assertion is the `Validation` value.
- The abstract `BaseEvaluator.evaluate` has no body to model. `KnowledgeAwarenessEvaluator.Evaluate` is its only implementation here.
- `generate_test_cases` in `metrics.py` is left out: it builds a fixed test-data record, not part of scoring.
- `main.py` and the `utils` package (the LLM interface, the data generator and the parsing helpers) are not part of this model.
