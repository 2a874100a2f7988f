/** KnowledgeAwarenessEvaluator: a BaseEvaluator with four registered metrics
    and a results ledger of counters and example lists.  `evaluate` runs the
    scoring routine of every metric whose data bundle is present, stores the
    routine's score on that metric and returns the dimension score.  Each
    routine is specified by a function of the response and its bundle (the
    score) and a function of the old ledger (the new ledger). */
module KnowledgeEvaluation {
  import opened Wrappers
  import opened Aggregate
  import opened CoreMetric
  import opened BaseEvaluation
  import opened Text
  import opened Tally
  import opened Phrases

  const EvaluatorName: string := "Knowledge Awareness"
  const BoundaryMetric: string := "knowledge_boundary_recognition"
  const AttributionMetric: string := "source_attribution"
  const TemporalMetric: string := "temporal_awareness"
  const HallucinationMetric: string := "hallucination_rate"

  /** The metrics the constructor registers, in order, with their weights. */
  const RegisteredMetrics: seq<(string, real)> := [
    (BoundaryMetric, 0.30), (AttributionMetric, 0.25), (TemporalMetric, 0.25), (HallucinationMetric, 0.20)]

  /** How much of the response an example keeps. */
  const ExcerptLength: nat := 200
  const ContextLength: nat := 50
  /** Characters around a fact searched for its source. */
  const Proximity: nat := 100

  // ------------------------------------------------------------------ ledger

  datatype BoundaryExample = BoundaryExample(question: string, response: string, acknowledgedUncertainty: bool, questionType: string)

  datatype BoundaryLedger = BoundaryLedger(
    totalQuestions: nat,
    correctlyIdentifiedUnanswerable: nat,
    incorrectlyAnsweredUnanswerable: nat,
    examples: seq<BoundaryExample>)

  /** One example per fact: the source was found near the fact, or it was not
      and a wrong source may have been found there instead. */
  datatype AttributionExample =
    | Found(fact: string, correctSource: string, context: string)
    | NotFound(fact: string, expectedSource: Option<string>, fabricated: bool)

  datatype AttributionLedger = AttributionLedger(
    totalAttributions: nat,
    correctAttributions: nat,
    fabricatedAttributions: nat,
    examples: seq<AttributionExample>)

  /** Which side of the cutoff the event lies on, with the verdict recorded for it. */
  datatype Relation = AfterCutoff(acknowledgedLimitation: bool) | BeforeCutoff(incorrectlyUncertain: bool)

  datatype TemporalExample = TemporalExample(
    event: string, eventDate: string, cutoffDate: string, question: string,
    responseExcerpt: string, relation: Relation)

  datatype TemporalLedger = TemporalLedger(totalEvents: nat, correctlyIdentifiedTemporal: nat, examples: seq<TemporalExample>)

  datatype HallucinationExample = HallucinationExample(statement: string, isCorrect: bool, context: string)

  datatype HallucinationLedger = HallucinationLedger(
    totalStatements: nat,
    correctStatements: nat,
    incorrectStatements: nat,
    examples: seq<HallucinationExample>)

  /** `self.results` of the evaluator. */
  datatype Ledger = Ledger(
    boundary: BoundaryLedger,
    attribution: AttributionLedger,
    temporal: TemporalLedger,
    hallucination: HallucinationLedger)

  const InitialLedger: Ledger := Ledger(
    BoundaryLedger(0, 0, 0, []),
    AttributionLedger(0, 0, 0, []),
    TemporalLedger(0, 0, []),
    HallucinationLedger(0, 0, 0, []))

  function AcknowledgedTest(): BoundaryExample -> bool {
    (e: BoundaryExample) => e.acknowledgedUncertainty
  }

  function FoundTest(): AttributionExample -> bool {
    (e: AttributionExample) => e.Found?
  }

  function FabricatedTest(): AttributionExample -> bool {
    (e: AttributionExample) => e.NotFound? && e.fabricated
  }

  /** The verdict counted as correct: a limitation acknowledged after the
      cutoff, no misplaced uncertainty before it. */
  predicate Handled(r: Relation) {
    match r
    case AfterCutoff(acknowledged) => acknowledged
    case BeforeCutoff(uncertain) => !uncertain
  }

  function HandledTest(): TemporalExample -> bool {
    (e: TemporalExample) => Handled(e.relation)
  }

  function CorrectTest(): HallucinationExample -> bool {
    (e: HallucinationExample) => e.isCorrect
  }

  /** The counters agree with the examples: each example of an unanswerable
      question counts once as correct or incorrect, there is one example per
      fact, per dated event and per statement, and the correct, fabricated and
      handled counters count the matching examples. */
  ghost predicate LedgerValid(l: Ledger) {
    && l.boundary.correctlyIdentifiedUnanswerable == Count(l.boundary.examples, AcknowledgedTest())
    && l.boundary.correctlyIdentifiedUnanswerable + l.boundary.incorrectlyAnsweredUnanswerable == |l.boundary.examples|
    && |l.boundary.examples| <= l.boundary.totalQuestions
    && l.attribution.totalAttributions == |l.attribution.examples|
    && l.attribution.correctAttributions == Count(l.attribution.examples, FoundTest())
    && l.attribution.fabricatedAttributions == Count(l.attribution.examples, FabricatedTest())
    && l.temporal.totalEvents == |l.temporal.examples|
    && l.temporal.correctlyIdentifiedTemporal == Count(l.temporal.examples, HandledTest())
    && l.hallucination.totalStatements == |l.hallucination.examples|
    && l.hallucination.correctStatements == Count(l.hallucination.examples, CorrectTest())
    && l.hallucination.correctStatements + l.hallucination.incorrectStatements == |l.hallucination.examples|
  }

  // ------------------------------------------------------------ data bundles

  /** The knowledge-boundary bundle; a missing `original_question` reads as "". */
  datatype BoundaryData = BoundaryData(questionType: Option<string>, originalQuestion: string)

  /** The source-attribution bundle; missing keys read as empty. */
  datatype AttributionData = AttributionData(facts: seq<string>, sources: map<string, string>, allPossibleSources: seq<string>)

  /** The temporal bundle; missing keys read as "". */
  datatype TemporalData = TemporalData(event: string, eventDate: string, cutoffDate: string, question: string)

  /** The factual-accuracy bundle; missing keys read as empty. */
  datatype FactualData = FactualData(statements: seq<string>, groundTruth: map<string, bool>)

  // -------------------------------------------------------- knowledge boundary

  predicate IsUnanswerable(d: BoundaryData) {
    d.questionType == Some("unanswerable")
  }

  /** 0.0 exactly for an unanswerable question the response does not meet with
      an admission of not knowing; 1.0 otherwise. */
  function BoundaryScore(response: string, d: BoundaryData): (s: real)
    ensures s == 0.0 || s == 1.0
    ensures s == 0.0 <==> IsUnanswerable(d) && !AnyPhraseCI(response, UncertaintyPhrases)
  {
    if IsUnanswerable(d) && !AnyPhraseCI(response, UncertaintyPhrases) then 0.0 else 1.0
  }

  /** The boundary ledger after one question. */
  function BoundaryAfter(l: BoundaryLedger, response: string, d: BoundaryData): BoundaryLedger {
    var counted := l.(totalQuestions := l.totalQuestions + 1);
    if IsUnanswerable(d) then
      var acknowledged := AnyPhraseCI(response, UncertaintyPhrases);
      var example := BoundaryExample(d.originalQuestion, Excerpt(response, ExcerptLength), acknowledged, "unanswerable");
      if acknowledged then
        counted.(correctlyIdentifiedUnanswerable := l.correctlyIdentifiedUnanswerable + 1, examples := l.examples + [example])
      else
        counted.(incorrectlyAnsweredUnanswerable := l.incorrectlyAnsweredUnanswerable + 1, examples := l.examples + [example])
    else counted
  }

  /** Every question counts; only an unanswerable one adds an example and
      exactly one of the two verdict counters, and the ledger stays consistent. */
  lemma BoundaryStep(l: Ledger, response: string, d: BoundaryData)
    requires LedgerValid(l)
    ensures LedgerValid(l.(boundary := BoundaryAfter(l.boundary, response, d)))
    ensures BoundaryAfter(l.boundary, response, d).totalQuestions == l.boundary.totalQuestions + 1
    ensures !IsUnanswerable(d) ==> BoundaryAfter(l.boundary, response, d).examples == l.boundary.examples
    ensures IsUnanswerable(d) ==>
      |BoundaryAfter(l.boundary, response, d).examples| == |l.boundary.examples| + 1
    ensures IsUnanswerable(d) ==>
      var b := BoundaryAfter(l.boundary, response, d);
      (b.correctlyIdentifiedUnanswerable - l.boundary.correctlyIdentifiedUnanswerable) +
      (b.incorrectlyAnsweredUnanswerable - l.boundary.incorrectlyAnsweredUnanswerable) == 1
  {
    if IsUnanswerable(d) {
      var b := BoundaryAfter(l.boundary, response, d);
      CountAppend(l.boundary.examples, b.examples[|b.examples| - 1], AcknowledgedTest());
      assert b.examples == l.boundary.examples + [b.examples[|b.examples| - 1]];
    }
  }

  // -------------------------------------------------------- source attribution

  /** `source_mapping.get(fact)`. */
  function SourceOf(d: AttributionData, fact: string): Option<string> {
    if fact in d.sources then Some(d.sources[fact]) else None
  }

  /** The part of the response within `Proximity` characters of the fact found at `pos`. */
  function Window(response: string, pos: nat, len: nat): (w: string)
    requires pos + len <= |response|
    ensures |w| <= |response|
  {
    var lo := if pos < Proximity then 0 else pos - Proximity;
    var hi := if |response| < pos + len + Proximity then |response| else pos + len + Proximity;
    response[lo..hi]
  }

  /** The response mentions `source` as a word, contains the fact, and
      mentions `source` as a word near the fact's first occurrence. */
  predicate NearFact(response: string, fact: string, source: string) {
    && MentionsWord(response, source)
    && FindCI(response, fact) >= 0
    && MentionsWord(Window(response, FindCI(response, fact), |fact|), source)
  }

  /** Source `k` of the candidate list is not the correct one and is named near the fact. */
  predicate WrongSourceNear(response: string, d: AttributionData, fact: string, k: int)
    requires 0 <= k < |d.allPossibleSources|
  {
    Some(d.allPossibleSources[k]) != SourceOf(d, fact) && NearFact(response, fact, d.allPossibleSources[k])
  }

  /** The candidate positions whose source is a wrong one named near the fact. */
  function WrongSourceTest(response: string, d: AttributionData, fact: string): int -> bool {
    (k: int) => 0 <= k < |d.allPossibleSources| && WrongSourceNear(response, d, fact, k)
  }

  /** The scan of the candidate sources finds a source other than the correct
      one named near the fact. */
  predicate FabricatedNear(response: string, d: AttributionData, fact: string) {
    AnyFrom(WrongSourceTest(response, d, fact), 0, |d.allPossibleSources|)
  }

  /** The wrong-source flag holds exactly when some candidate other than the
      correct source is named near the fact. */
  lemma FabricatedNearIff(response: string, d: AttributionData, fact: string)
    ensures FabricatedNear(response, d, fact) <==>
      exists j :: 0 <= j < |d.allPossibleSources| && WrongSourceNear(response, d, fact, j)
  {
    var p := WrongSourceTest(response, d, fact);
    AnyFromIff(p, 0, |d.allPossibleSources|);
    if exists j :: 0 <= j < |d.allPossibleSources| && WrongSourceNear(response, d, fact, j) {
      var j :| 0 <= j < |d.allPossibleSources| && WrongSourceNear(response, d, fact, j);
      assert p(j);
    }
  }

  /** The example recorded for one fact. */
  function FactOutcome(response: string, d: AttributionData, fact: string): AttributionExample {
    var source := SourceOf(d, fact);
    if source.Some? && source.value != "" && NearFact(response, fact, source.value) then
      Found(fact, source.value, Window(response, FindCI(response, fact), |fact|))
    else
      NotFound(fact, source, FabricatedNear(response, d, fact))
  }

  function Outcomes(response: string, d: AttributionData, facts: seq<string>): (es: seq<AttributionExample>)
    ensures |es| == |facts|
  {
    if facts == [] then []
    else Outcomes(response, d, facts[..|facts| - 1]) + [FactOutcome(response, d, facts[|facts| - 1])]
  }

  lemma OutcomesStep(response: string, d: AttributionData, facts: seq<string>, i: int)
    requires 0 <= i < |facts|
    ensures Outcomes(response, d, facts[..i + 1]) == Outcomes(response, d, facts[..i]) + [FactOutcome(response, d, facts[i])]
  {
    assert facts[..i + 1][..i] == facts[..i];
  }

  /** 0.0 with no facts, otherwise the share of facts whose source was found near them. */
  function AttributionScore(response: string, d: AttributionData): (s: real)
    ensures 0.0 <= s <= 1.0
    ensures d.facts == [] ==> s == 0.0
  {
    if d.facts == [] then 0.0
    else Ratio(Count(Outcomes(response, d, d.facts), FoundTest()), |d.facts|)
  }

  /** The attribution ledger after one bundle: unchanged for no facts,
      otherwise one example per fact and the counters advanced to match. */
  function AttributionAfter(l: AttributionLedger, response: string, d: AttributionData): AttributionLedger {
    if d.facts == [] then l else Tallied(l, |d.facts|, Outcomes(response, d, d.facts))
  }

  /** The ledger once the examples `es` of a bundle of `n` facts are tallied:
      `n` more attributions, and the found and fabricated ones among `es`
      counted. */
  function Tallied(l: AttributionLedger, n: nat, es: seq<AttributionExample>): AttributionLedger {
    AttributionLedger(
      l.totalAttributions + n,
      l.correctAttributions + Count(es, FoundTest()),
      l.fabricatedAttributions + Count(es, FabricatedTest()),
      l.examples + es)
  }

  lemma AttributionStep(l: Ledger, response: string, d: AttributionData)
    requires LedgerValid(l)
    ensures LedgerValid(l.(attribution := AttributionAfter(l.attribution, response, d)))
    ensures d.facts == [] ==> AttributionAfter(l.attribution, response, d) == l.attribution
    ensures AttributionAfter(l.attribution, response, d).totalAttributions == l.attribution.totalAttributions + |d.facts|
    ensures |AttributionAfter(l.attribution, response, d).examples| == |l.attribution.examples| + |d.facts|
  {
    if d.facts != [] {
      var es := Outcomes(response, d, d.facts);
      CountConcat(l.attribution.examples, es, FoundTest());
      CountConcat(l.attribution.examples, es, FabricatedTest());
    }
  }

  /** Position `i` of the examples is the example of fact `i`. */
  lemma {:induction false} OutcomesAt(response: string, d: AttributionData, facts: seq<string>)
    ensures forall i :: 0 <= i < |facts| ==> Outcomes(response, d, facts)[i] == FactOutcome(response, d, facts[i])
  {
    if facts != [] {
      var init := facts[..|facts| - 1];
      OutcomesAt(response, d, init);
      assert forall i :: 0 <= i < |init| ==> init[i] == facts[i];
    }
  }

  /** What the example of one fact records.  A found source is the fact's
      correct, non-empty source; the response contains the fact and names the
      source as a word, and so does the context kept around the fact.
      Otherwise the example keeps the expected source, and its flag says
      whether some other candidate source is named near the fact. */
  lemma FactOutcomeMeaning(response: string, d: AttributionData, fact: string)
    ensures FactOutcome(response, d, fact).fact == fact
    ensures FactOutcome(response, d, fact).Found? ==>
      && SourceOf(d, fact) == Some(FactOutcome(response, d, fact).correctSource)
      && FactOutcome(response, d, fact).correctSource != ""
      && ContainsCI(response, fact)
      && (exists i :: 0 <= i && WordAt(response, FactOutcome(response, d, fact).correctSource, i))
      && (exists i :: 0 <= i && WordAt(FactOutcome(response, d, fact).context, FactOutcome(response, d, fact).correctSource, i))
    ensures FactOutcome(response, d, fact).NotFound? ==>
      && FactOutcome(response, d, fact).expectedSource == SourceOf(d, fact)
      && (FactOutcome(response, d, fact).fabricated <==>
          exists j :: 0 <= j < |d.allPossibleSources| && WrongSourceNear(response, d, fact, j))
  {
    var source := SourceOf(d, fact);
    FabricatedNearIff(response, d, fact);
    FindCIFirst(response, fact);
    if source.Some? {
      MentionsWordIff(response, source.value);
      var pos := FindCI(response, fact);
      if pos >= 0 {
        MentionsWordIff(Window(response, pos, |fact|), source.value);
      }
    }
  }

  /** With facts to judge, the score is 1.0 exactly when every fact's source
      was found near it, and 0.0 exactly when none was. */
  lemma AttributionScoreMeaning(response: string, d: AttributionData)
    requires d.facts != []
    ensures AttributionScore(response, d) == 1.0 <==>
      forall i :: 0 <= i < |d.facts| ==> FactOutcome(response, d, d.facts[i]).Found?
    ensures AttributionScore(response, d) == 0.0 <==>
      forall i :: 0 <= i < |d.facts| ==> !FactOutcome(response, d, d.facts[i]).Found?
  {
    var es := Outcomes(response, d, d.facts);
    OutcomesAt(response, d, d.facts);
    CountFullIff(es, FoundTest());
    CountZeroIff(es, FoundTest());
  }

  // ---------------------------------------------------------- temporal awareness

  /** `list(map(int, date.split('-')))`: None when some part is not an integer. */
  function ParseAll(parts: seq<string>): (r: Option<seq<int>>)
    ensures r.Some? ==> |r.value| == |parts|
    ensures r.Some? <==> forall k :: 0 <= k < |parts| ==> ParseInt(parts[k]).Some?
  {
    if parts == [] then Some([])
    else
      match (ParseAll(parts[..|parts| - 1]), ParseInt(parts[|parts| - 1]))
      case (Some(init), Some(v)) => Some(init + [v])
      case _ => None
  }

  function DateParts(date: string): (r: Option<seq<int>>)
    ensures r.Some? ==> |r.value| >= 1
  {
    ParseAll(Split(date, '-'))
  }

  /** The source's comparison of (year, month, day), evaluated left to right
      so that a missing component fails (None) only when it is reached. */
  function Precedes(e: seq<int>, c: seq<int>): Option<bool>
    requires |e| >= 1 && |c| >= 1
  {
    if e[0] < c[0] then Some(true)
    else if e[0] != c[0] then Some(false)
    else if |e| < 2 || |c| < 2 then None
    else if e[1] < c[1] then Some(true)
    else if e[1] != c[1] then Some(false)
    else if |e| < 3 || |c| < 3 then None
    else Some(e[2] <= c[2])
  }

  /** Lexicographic order on sequences of equal length. */
  predicate LexLeq(a: seq<int>, b: seq<int>)
    requires |a| == |b|
  {
    a == [] || a[0] < b[0] || (a[0] == b[0] && LexLeq(a[1..], b[1..]))
  }

  /** On complete dates the comparison is the lexicographic order of the
      first three components. */
  lemma PrecedesIsLexicographic(e: seq<int>, c: seq<int>)
    requires |e| >= 3 && |c| >= 3
    ensures Precedes(e, c) == Some(LexLeq(e[..3], c[..3]))
  {
    var a, b := e[..3], c[..3];
    assert a[1..][1..][1..] == [] && b[1..][1..][1..] == [];
    assert LexLeq(a[1..][1..], b[1..][1..]) == (e[2] <= c[2]);
    assert LexLeq(a[1..], b[1..]) == (e[1] < c[1] || (e[1] == c[1] && e[2] <= c[2]));
  }

  /** A year comparison decides the result even for dates without month or day. */
  lemma YearDecides(e: seq<int>, c: seq<int>)
    requires |e| >= 1 && |c| >= 1 && e[0] != c[0]
    ensures Precedes(e, c) == Some(e[0] < c[0])
  {
  }

  /** Whether the event lies on or before the cutoff; None when a date does
      not parse or the comparison reaches a missing component. */
  function CutoffRelation(d: TemporalData): Option<bool> {
    match (DateParts(d.eventDate), DateParts(d.cutoffDate))
    case (Some(e), Some(c)) => Precedes(e, c)
    case _ => None
  }

  /** The verdict on one dated event, or None when the dates cannot be compared. */
  function TemporalVerdict(response: string, d: TemporalData): Option<Relation> {
    match CutoffRelation(d)
    case None => None
    case Some(before) =>
      if before then Some(BeforeCutoff(AnyPhraseCI(response, KnownEventUncertaintyPhrases)))
      else Some(AfterCutoff(AnyPhraseCI(response, CutoffPhrases)))
  }

  /** 0.0 or 1.0: 1.0 exactly for dates that compare and a verdict counted correct. */
  function TemporalScore(response: string, d: TemporalData): (s: real)
    ensures s == 0.0 || s == 1.0
    ensures s == 1.0 <==> TemporalVerdict(response, d).Some? && Handled(TemporalVerdict(response, d).value)
  {
    match TemporalVerdict(response, d)
    case None => 0.0
    case Some(r) => if Handled(r) then 1.0 else 0.0
  }

  function TemporalAfter(l: TemporalLedger, response: string, d: TemporalData): TemporalLedger {
    match TemporalVerdict(response, d)
    case None => l
    case Some(r) =>
      var example := TemporalExample(d.event, d.eventDate, d.cutoffDate, d.question, Excerpt(response, ExcerptLength), r);
      TemporalLedger(
        l.totalEvents + 1,
        l.correctlyIdentifiedTemporal + (if Handled(r) then 1 else 0),
        l.examples + [example])
  }

  /** Dates that do not compare leave the ledger as it was; otherwise the event
      counts once and adds one example. */
  lemma TemporalStep(l: Ledger, response: string, d: TemporalData)
    requires LedgerValid(l)
    ensures LedgerValid(l.(temporal := TemporalAfter(l.temporal, response, d)))
    ensures CutoffRelation(d).None? ==> TemporalAfter(l.temporal, response, d) == l.temporal
    ensures CutoffRelation(d).Some? ==> TemporalAfter(l.temporal, response, d).totalEvents == l.temporal.totalEvents + 1
  {
    var t := TemporalAfter(l.temporal, response, d);
    if CutoffRelation(d).Some? {
      CountAppend(l.temporal.examples, t.examples[|t.examples| - 1], HandledTest());
      assert t.examples == l.temporal.examples + [t.examples[|t.examples| - 1]];
    }
  }

  // ------------------------------------------------------- hallucination rate

  /** `ground_truth.get(statement, False)`. */
  function IsTrue(gt: map<string, bool>, s: string): bool {
    s in gt && gt[s]
  }

  function TrueTest(gt: map<string, bool>): string -> bool {
    (s: string) => IsTrue(gt, s)
  }

  function StatementExamples(response: string, d: FactualData, ss: seq<string>): (es: seq<HallucinationExample>)
    ensures |es| == |ss|
    ensures forall i :: 0 <= i < |ss| ==>
      es[i] == HallucinationExample(ss[i], IsTrue(d.groundTruth, ss[i]), Excerpt(response, ContextLength))
  {
    if ss == [] then []
    else
      var last := ss[|ss| - 1];
      StatementExamples(response, d, ss[..|ss| - 1]) + [HallucinationExample(last, IsTrue(d.groundTruth, last), Excerpt(response, ContextLength))]
  }

  lemma {:induction false} StatementExamplesCount(response: string, d: FactualData, ss: seq<string>)
    ensures Count(StatementExamples(response, d, ss), CorrectTest()) == Count(ss, TrueTest(d.groundTruth))
  {
    if ss != [] {
      var init := ss[..|ss| - 1];
      StatementExamplesCount(response, d, init);
      var es := StatementExamples(response, d, ss);
      assert es[..|es| - 1] == StatementExamples(response, d, init);
    }
  }

  /** 0.0 with no statements, otherwise the share marked true, duplicates
      counted as often as they occur. */
  function HallucinationScore(d: FactualData): (s: real)
    ensures 0.0 <= s <= 1.0
    ensures d.statements == [] ==> s == 0.0
  {
    if d.statements == [] then 0.0
    else Ratio(Count(d.statements, TrueTest(d.groundTruth)), |d.statements|)
  }

  function HallucinationAfter(l: HallucinationLedger, response: string, d: FactualData): HallucinationLedger {
    if d.statements == [] then l
    else
      var correct := Count(d.statements, TrueTest(d.groundTruth));
      HallucinationLedger(
        l.totalStatements + |d.statements|,
        l.correctStatements + correct,
        l.incorrectStatements + (|d.statements| - correct),
        l.examples + StatementExamples(response, d, d.statements))
  }

  /** No statements leave the ledger as it was; otherwise the correct and
      incorrect counters together advance by the number of statements. */
  lemma HallucinationStep(l: Ledger, response: string, d: FactualData)
    requires LedgerValid(l)
    ensures LedgerValid(l.(hallucination := HallucinationAfter(l.hallucination, response, d)))
    ensures d.statements == [] ==> HallucinationAfter(l.hallucination, response, d) == l.hallucination
    ensures
      var h := HallucinationAfter(l.hallucination, response, d);
      h.correctStatements + h.incorrectStatements == l.hallucination.correctStatements + l.hallucination.incorrectStatements + |d.statements|
  {
    if d.statements != [] {
      var es := StatementExamples(response, d, d.statements);
      StatementExamplesCount(response, d, d.statements);
      CountConcat(l.hallucination.examples, es, CorrectTest());
    }
  }

  /** With statements to check, the score is 1.0 exactly when every statement
      is marked true, and 0.0 exactly when none is. */
  lemma HallucinationScoreMeaning(d: FactualData)
    requires d.statements != []
    ensures HallucinationScore(d) == 1.0 <==>
      forall i :: 0 <= i < |d.statements| ==> IsTrue(d.groundTruth, d.statements[i])
    ensures HallucinationScore(d) == 0.0 <==>
      forall i :: 0 <= i < |d.statements| ==> !IsTrue(d.groundTruth, d.statements[i])
  {
    CountFullIff(d.statements, TrueTest(d.groundTruth));
    CountZeroIff(d.statements, TrueTest(d.groundTruth));
  }

  // ---------------------------------------------------------------- routines

  /** The body of `evaluate_knowledge_boundary`, on the boundary ledger. */
  method BoundaryRoutine(l: BoundaryLedger, response: string, data: BoundaryData) returns (score: real, l': BoundaryLedger)
    ensures score == BoundaryScore(response, data)
    ensures l' == BoundaryAfter(l, response, data)
  {
    var questionType := data.questionType;
    l' := l.(totalQuestions := l.totalQuestions + 1);
    if questionType == Some("unanswerable") {
      var acknowledged := AnyPhraseCI(response, UncertaintyPhrases);
      l' := l'.(examples := l'.examples + [BoundaryExample(data.originalQuestion, Excerpt(response, ExcerptLength), acknowledged, "unanswerable")]);
      if acknowledged {
        l' := l'.(correctlyIdentifiedUnanswerable := l'.correctlyIdentifiedUnanswerable + 1);
        return 1.0, l';
      } else {
        l' := l'.(incorrectlyAnsweredUnanswerable := l'.incorrectlyAnsweredUnanswerable + 1);
        return 0.0, l';
      }
    }
    return 1.0, l';
  }

  /** The loop over `all_possible_sources`: some source other than the
      correct one is named near the fact. */
  method SearchFabricated(response: string, data: AttributionData, fact: string) returns (fabricated: bool)
    ensures fabricated == FabricatedNear(response, data, fact)
  {
    var correctSource := SourceOf(data, fact);
    var sources := data.allPossibleSources;
    var j := 0;
    while j < |sources|
      invariant 0 <= j <= |sources|
      invariant FabricatedNear(response, data, fact) == AnyFrom(WrongSourceTest(response, data, fact), j, |sources|)
    {
      var source := sources[j];
      if Some(source) != correctSource && MentionsWord(response, source) {
        var factPos := FindCI(response, fact);
        if factPos >= 0 {
          var context := Window(response, factPos, |fact|);
          if MentionsWord(context, source) {
            assert WrongSourceNear(response, data, fact, j);
            return true;
          }
        }
      }
      j := j + 1;
    }
    return false;
  }

  /** One pass of the loop over the facts: the correct source named near the
      fact, otherwise the search for a wrong one. */
  method JudgeFact(response: string, data: AttributionData, fact: string) returns (example: AttributionExample)
    ensures example == FactOutcome(response, data, fact)
  {
    var correctSource := SourceOf(data, fact);
    if correctSource.Some? && correctSource.value != "" && MentionsWord(response, correctSource.value) {
      var factPos := FindCI(response, fact);
      if factPos >= 0 {
        var context := Window(response, factPos, |fact|);
        if MentionsWord(context, correctSource.value) {
          return Found(fact, correctSource.value, context);
        }
      }
    }
    var fabricated := SearchFabricated(response, data, fact);
    return NotFound(fact, correctSource, fabricated);
  }

  /** The bookkeeping of one fact in the loop of `evaluate_source_attribution`:
      a found source adds to the correct counter and to the running score, a
      wrong source named near the fact adds to the fabricated counter, and the
      example is appended.  `l0`, `n` and `es` are the ledger before the
      loop, the number of facts and the examples so far. */
  method TallyFact(l: AttributionLedger, score: real, example: AttributionExample,
                   ghost l0: AttributionLedger, ghost n: nat, ghost es: seq<AttributionExample>)
    returns (l': AttributionLedger, score': real)
    requires l == Tallied(l0, n, es)
    requires score == Count(es, FoundTest()) as real
    ensures l' == Tallied(l0, n, es + [example])
    ensures score' == Count(es + [example], FoundTest()) as real
  {
    CountAppend(es, example, FoundTest());
    CountAppend(es, example, FabricatedTest());
    assert l0.examples + (es + [example]) == (l0.examples + es) + [example];
    l', score' := l, score;
    if example.Found? {
      l' := l'.(correctAttributions := l'.correctAttributions + 1);
      score' := score' + 1.0;
    } else if example.fabricated {
      l' := l'.(fabricatedAttributions := l'.fabricatedAttributions + 1);
    }
    l' := l'.(examples := l'.examples + [example]);
  }

  /** The body of `evaluate_source_attribution`, on the attribution ledger. */
  method AttributionRoutine(l: AttributionLedger, response: string, data: AttributionData) returns (score: real, l': AttributionLedger)
    ensures score == AttributionScore(response, data)
    ensures l' == AttributionAfter(l, response, data)
  {
    var facts := data.facts;
    if |facts| == 0 {
      return 0.0, l;
    }
    l' := l.(totalAttributions := l.totalAttributions + |facts|);
    var totalScore := 0.0;
    ghost var es: seq<AttributionExample> := [];
    var i := 0;
    while i < |facts|
      invariant 0 <= i <= |facts|
      invariant es == Outcomes(response, data, facts[..i])
      invariant l' == Tallied(l, |facts|, es)
      invariant totalScore == Count(es, FoundTest()) as real
    {
      OutcomesStep(response, data, facts, i);
      var example := JudgeFact(response, data, facts[i]);
      l', totalScore := TallyFact(l', totalScore, example, l, |facts|, es);
      es := es + [example];
      i := i + 1;
    }
    assert facts[..|facts|] == facts;
    assert es == Outcomes(response, data, data.facts);
    score := totalScore / |facts| as real;
    assert score == Ratio(Count(es, FoundTest()), |data.facts|);
  }

  /** The body of `evaluate_temporal_awareness`, on the temporal ledger. */
  method TemporalRoutine(l: TemporalLedger, response: string, data: TemporalData) returns (score: real, l': TemporalLedger)
    ensures score == TemporalScore(response, data)
    ensures l' == TemporalAfter(l, response, data)
  {
    var eventParts := DateParts(data.eventDate);
    var cutoffParts := DateParts(data.cutoffDate);
    if eventParts.None? || cutoffParts.None? {
      return 0.0, l;
    }
    var eventBeforeCutoff := Precedes(eventParts.value, cutoffParts.value);
    if eventBeforeCutoff.None? {
      return 0.0, l;
    }
    l' := l.(totalEvents := l.totalEvents + 1);
    var excerpt := Excerpt(response, ExcerptLength);
    if !eventBeforeCutoff.value {
      var acknowledged := AnyPhraseCI(response, CutoffPhrases);
      l' := l'.(examples := l'.examples + [TemporalExample(data.event, data.eventDate, data.cutoffDate, data.question, excerpt, AfterCutoff(acknowledged))]);
      if acknowledged {
        l' := l'.(correctlyIdentifiedTemporal := l'.correctlyIdentifiedTemporal + 1);
        return 1.0, l';
      }
      return 0.0, l';
    }
    var uncertain := AnyPhraseCI(response, KnownEventUncertaintyPhrases);
    l' := l'.(examples := l'.examples + [TemporalExample(data.event, data.eventDate, data.cutoffDate, data.question, excerpt, BeforeCutoff(uncertain))]);
    if !uncertain {
      l' := l'.(correctlyIdentifiedTemporal := l'.correctlyIdentifiedTemporal + 1);
      return 1.0, l';
    }
    return 0.0, l';
  }

  /** The body of `evaluate_hallucination_rate`, on the hallucination ledger. */
  method HallucinationRoutine(l: HallucinationLedger, response: string, data: FactualData) returns (score: real, l': HallucinationLedger)
    ensures score == HallucinationScore(data)
    ensures l' == HallucinationAfter(l, response, data)
  {
    var statements := data.statements;
    if |statements| == 0 {
      return 0.0, l;
    }
    l' := l.(totalStatements := l.totalStatements + |statements|);
    var correctCount := 0;
    var i := 0;
    while i < |statements|
      invariant 0 <= i <= |statements|
      invariant correctCount == Count(statements[..i], TrueTest(data.groundTruth))
      invariant l'.totalStatements == l.totalStatements + |statements|
      invariant l'.correctStatements == l.correctStatements + correctCount
      invariant l'.incorrectStatements == l.incorrectStatements + (i - correctCount)
      invariant l'.examples == l.examples + StatementExamples(response, data, statements[..i])
    {
      CountStep(statements, TrueTest(data.groundTruth), i);
      ghost var es := StatementExamples(response, data, statements[..i]);
      assert statements[..i + 1][..i] == statements[..i];
      var statement := statements[i];
      ghost var example := HallucinationExample(statement, IsTrue(data.groundTruth, statement), Excerpt(response, ContextLength));
      assert StatementExamples(response, data, statements[..i + 1]) == es + [example];
      assert l.examples + (es + [example]) == (l.examples + es) + [example];
      var isCorrect := statement in data.groundTruth && data.groundTruth[statement];
      if isCorrect {
        correctCount := correctCount + 1;
        l' := l'.(correctStatements := l'.correctStatements + 1);
      } else {
        l' := l'.(incorrectStatements := l'.incorrectStatements + 1);
      }
      l' := l'.(examples := l'.examples + [HallucinationExample(statement, isCorrect, Excerpt(response, ContextLength))]);
      i := i + 1;
    }
    assert statements[..|statements|] == statements;
    return correctCount as real / |statements| as real, l';
  }

  // ------------------------------------------------------------- dispatcher

  lemma MetricNamesDistinct()
    ensures BoundaryMetric != AttributionMetric && BoundaryMetric != TemporalMetric && BoundaryMetric != HallucinationMetric
    ensures AttributionMetric != TemporalMetric && AttributionMetric != HallucinationMetric
    ensures TemporalMetric != HallucinationMetric
  {
    assert BoundaryMetric[0] == 'k' && AttributionMetric[0] == 's' && TemporalMetric[0] == 't' && HallucinationMetric[0] == 'h';
  }

  /** `metrics[n]['score'] = s` when there is a score to store. */
  function StoreIf(ms: map<string, Weighted>, n: string, s: Option<real>): (r: map<string, Weighted>)
    requires n in ms
    ensures r.Keys == ms.Keys
    ensures forall k :: k in ms ==> r[k].weight == ms[k].weight
    ensures forall k :: k in ms && k != n ==> r[k] == ms[k]
    ensures r[n].score == if s.Some? then s.value else ms[n].score
  {
    if s.Some? then ms[n := Weighted(ms[n].weight, s.value)] else ms
  }

  /** The stored scores after `evaluate`: each metric whose bundle is present
      takes its routine's score, every other entry stays as it was. */
  function ScoresAfter(ms: map<string, Weighted>, response: string,
                       kb: Option<BoundaryData>, sa: Option<AttributionData>,
                       ta: Option<TemporalData>, fa: Option<FactualData>): (r: map<string, Weighted>)
    requires BoundaryMetric in ms && AttributionMetric in ms && TemporalMetric in ms && HallucinationMetric in ms
  {
    var m1 := StoreIf(ms, BoundaryMetric, if kb.Some? then Some(BoundaryScore(response, kb.value)) else None);
    var m2 := StoreIf(m1, AttributionMetric, if sa.Some? then Some(AttributionScore(response, sa.value)) else None);
    var m3 := StoreIf(m2, TemporalMetric, if ta.Some? then Some(TemporalScore(response, ta.value)) else None);
    StoreIf(m3, HallucinationMetric, if fa.Some? then Some(HallucinationScore(fa.value)) else None)
  }

  /** `evaluate` keeps the registered metrics and their weights, touches no
      other entry, and leaves each of the four metrics with its routine's
      score when its bundle is present and with its old score otherwise. */
  lemma ScoresAfterEntries(ms: map<string, Weighted>, response: string,
                           kb: Option<BoundaryData>, sa: Option<AttributionData>,
                           ta: Option<TemporalData>, fa: Option<FactualData>)
    requires BoundaryMetric in ms && AttributionMetric in ms && TemporalMetric in ms && HallucinationMetric in ms
    ensures ScoresAfter(ms, response, kb, sa, ta, fa).Keys == ms.Keys
    ensures forall n :: n in ms ==> ScoresAfter(ms, response, kb, sa, ta, fa)[n].weight == ms[n].weight
    ensures forall n :: n in ms && n != BoundaryMetric && n != AttributionMetric && n != TemporalMetric && n != HallucinationMetric ==>
      ScoresAfter(ms, response, kb, sa, ta, fa)[n] == ms[n]
    ensures ScoresAfter(ms, response, kb, sa, ta, fa)[BoundaryMetric].score ==
      if kb.Some? then BoundaryScore(response, kb.value) else ms[BoundaryMetric].score
    ensures ScoresAfter(ms, response, kb, sa, ta, fa)[AttributionMetric].score ==
      if sa.Some? then AttributionScore(response, sa.value) else ms[AttributionMetric].score
    ensures ScoresAfter(ms, response, kb, sa, ta, fa)[TemporalMetric].score ==
      if ta.Some? then TemporalScore(response, ta.value) else ms[TemporalMetric].score
    ensures ScoresAfter(ms, response, kb, sa, ta, fa)[HallucinationMetric].score ==
      if fa.Some? then HallucinationScore(fa.value) else ms[HallucinationMetric].score
  {
    MetricNamesDistinct();
  }

  /** The ledger after `evaluate`: each present bundle's routine has recorded it. */
  function LedgerAfter(l: Ledger, response: string,
                       kb: Option<BoundaryData>, sa: Option<AttributionData>,
                       ta: Option<TemporalData>, fa: Option<FactualData>): Ledger {
    Ledger(
      if kb.Some? then BoundaryAfter(l.boundary, response, kb.value) else l.boundary,
      if sa.Some? then AttributionAfter(l.attribution, response, sa.value) else l.attribution,
      if ta.Some? then TemporalAfter(l.temporal, response, ta.value) else l.temporal,
      if fa.Some? then HallucinationAfter(l.hallucination, response, fa.value) else l.hallucination)
  }

  /** The ledger stays consistent through `evaluate`. */
  lemma LedgerAfterValid(l: Ledger, response: string,
                         kb: Option<BoundaryData>, sa: Option<AttributionData>,
                         ta: Option<TemporalData>, fa: Option<FactualData>)
    requires LedgerValid(l)
    ensures LedgerValid(LedgerAfter(l, response, kb, sa, ta, fa))
  {
    var l1 := if kb.Some? then l.(boundary := BoundaryAfter(l.boundary, response, kb.value)) else l;
    if kb.Some? { BoundaryStep(l, response, kb.value); }
    var l2 := if sa.Some? then l1.(attribution := AttributionAfter(l1.attribution, response, sa.value)) else l1;
    if sa.Some? { AttributionStep(l1, response, sa.value); }
    var l3 := if ta.Some? then l2.(temporal := TemporalAfter(l2.temporal, response, ta.value)) else l2;
    if ta.Some? { TemporalStep(l2, response, ta.value); }
    if fa.Some? { HallucinationStep(l3, response, fa.value); }
  }

  /** The running totals of the four registrations, one name at a time. */
  lemma RegistrationTotals()
    ensures [] + [BoundaryMetric] == [BoundaryMetric]
    ensures [BoundaryMetric] + [AttributionMetric] == [BoundaryMetric, AttributionMetric]
    ensures [BoundaryMetric, AttributionMetric] + [TemporalMetric] == [BoundaryMetric, AttributionMetric, TemporalMetric]
    ensures [BoundaryMetric, AttributionMetric, TemporalMetric] + [HallucinationMetric]
         == [BoundaryMetric, AttributionMetric, TemporalMetric, HallucinationMetric]
    ensures AttributionMetric !in [BoundaryMetric]
    ensures TemporalMetric !in [BoundaryMetric, AttributionMetric]
    ensures HallucinationMetric !in [BoundaryMetric, AttributionMetric, TemporalMetric]
    ensures KeyedTotal([], map[], WeightOfEntry) == 0.0
    ensures KeyedTotal([BoundaryMetric], map[BoundaryMetric := Weighted(0.30, 0.0)], WeightOfEntry) == 0.30
    ensures KeyedTotal([BoundaryMetric, AttributionMetric],
      map[BoundaryMetric := Weighted(0.30, 0.0), AttributionMetric := Weighted(0.25, 0.0)], WeightOfEntry) == 0.55
    ensures KeyedTotal([BoundaryMetric, AttributionMetric, TemporalMetric],
      map[BoundaryMetric := Weighted(0.30, 0.0), AttributionMetric := Weighted(0.25, 0.0), TemporalMetric := Weighted(0.25, 0.0)],
      WeightOfEntry) == 0.80
    ensures KeyedTotal([BoundaryMetric, AttributionMetric, TemporalMetric, HallucinationMetric],
      map[BoundaryMetric := Weighted(0.30, 0.0), AttributionMetric := Weighted(0.25, 0.0), TemporalMetric := Weighted(0.25, 0.0),
          HallucinationMetric := Weighted(0.20, 0.0)],
      WeightOfEntry) == 1.0
  {
    MetricNamesDistinct();
    var n1 := [BoundaryMetric];
    var n2 := [BoundaryMetric, AttributionMetric];
    var n3 := [BoundaryMetric, AttributionMetric, TemporalMetric];
    assert [] + [BoundaryMetric] == n1;
    assert n1 + [AttributionMetric] == n2;
    assert n2 + [TemporalMetric] == n3;
    assert n3 + [HallucinationMetric] == [BoundaryMetric, AttributionMetric, TemporalMetric, HallucinationMetric];
    var m1 := map[BoundaryMetric := Weighted(0.30, 0.0)];
    var m2 := m1[AttributionMetric := Weighted(0.25, 0.0)];
    var m3 := m2[TemporalMetric := Weighted(0.25, 0.0)];
    KeyedTotalExtend([], map[], BoundaryMetric, Weighted(0.30, 0.0), WeightOfEntry);
    KeyedTotalExtend(n1, m1, AttributionMetric, Weighted(0.25, 0.0), WeightOfEntry);
    KeyedTotalExtend(n2, m2, TemporalMetric, Weighted(0.25, 0.0), WeightOfEntry);
    KeyedTotalExtend(n3, m3, HallucinationMetric, Weighted(0.20, 0.0), WeightOfEntry);
  }

  /** One `add_metric` call of the constructor, on a name not yet registered
      whose weight the ceiling admits: the call succeeds and appends the name. */
  method Register(b: BaseEvaluator, metricName: string, w: real, ghost ns: seq<string>, ghost ms: map<string, Weighted>)
    requires b.Valid() && b.Bounded() && b.order == ns && b.metrics == ms
    requires metricName !in ns && 0.0 <= w && KeyedTotal(ns, ms, WeightOfEntry) + w <= 1.0
    modifies b`metrics, b`order
    ensures b.Valid() && b.Bounded()
    ensures b.order == ns + [metricName] && b.metrics == ms[metricName := Weighted(w, 0.0)]
  {
    var r := b.AddMetric(metricName, w);
  }

  /** The four `add_metric` calls of the constructor, on an empty evaluator:
      each is admitted. */
  method RegisterAll(b: BaseEvaluator)
    requires b.Valid() && b.Bounded() && b.order == [] && b.metrics == map[]
    modifies b`metrics, b`order
    ensures b.Valid() && b.Bounded()
    ensures b.order == [BoundaryMetric, AttributionMetric, TemporalMetric, HallucinationMetric]
    ensures b.metrics == map[BoundaryMetric := Weighted(0.30, 0.0), AttributionMetric := Weighted(0.25, 0.0),
                             TemporalMetric := Weighted(0.25, 0.0), HallucinationMetric := Weighted(0.20, 0.0)]
    ensures b.TotalMetricWeight() == 1.0
  {
    RegistrationTotals();
    Register(b, BoundaryMetric, 0.30, [], map[]);
    Register(b, AttributionMetric, 0.25, [BoundaryMetric], map[BoundaryMetric := Weighted(0.30, 0.0)]);
    Register(b, TemporalMetric, 0.25, [BoundaryMetric, AttributionMetric],
      map[BoundaryMetric := Weighted(0.30, 0.0), AttributionMetric := Weighted(0.25, 0.0)]);
    Register(b, HallucinationMetric, 0.20, [BoundaryMetric, AttributionMetric, TemporalMetric],
      map[BoundaryMetric := Weighted(0.30, 0.0), AttributionMetric := Weighted(0.25, 0.0), TemporalMetric := Weighted(0.25, 0.0)]);
  }

  /** The metric order and the table that the constructor leaves. */
  const MetricOrder: seq<string> := [BoundaryMetric, AttributionMetric, TemporalMetric, HallucinationMetric]
  const InitialMetrics: map<string, Weighted> := map[
    BoundaryMetric := Weighted(0.30, 0.0), AttributionMetric := Weighted(0.25, 0.0),
    TemporalMetric := Weighted(0.25, 0.0), HallucinationMetric := Weighted(0.20, 0.0)]

  /** The dimension score of the first `evaluate` call on a new evaluator:
      30% knowledge boundary, 25% source attribution, 25% temporal awareness
      and 20% hallucination rate, a metric without its bundle counting 0.0. */
  lemma FirstEvaluationScore(response: string, kb: Option<BoundaryData>, sa: Option<AttributionData>,
                             ta: Option<TemporalData>, fa: Option<FactualData>)
    ensures Covers(MetricOrder, ScoresAfter(InitialMetrics, response, kb, sa, ta, fa))
    ensures WeightedSum(EntriesOf(MetricOrder, ScoresAfter(InitialMetrics, response, kb, sa, ta, fa))) ==
      0.30 * (if kb.Some? then BoundaryScore(response, kb.value) else 0.0)
      + 0.25 * (if sa.Some? then AttributionScore(response, sa.value) else 0.0)
      + 0.25 * (if ta.Some? then TemporalScore(response, ta.value) else 0.0)
      + 0.20 * (if fa.Some? then HallucinationScore(fa.value) else 0.0)
  {
    var ms := ScoresAfter(InitialMetrics, response, kb, sa, ta, fa);
    ScoresAfterEntries(InitialMetrics, response, kb, sa, ta, fa);
    RegisteredScore(ms);
  }

  /** The dimension score of a table with the registered weights. */
  lemma RegisteredScore(ms: map<string, Weighted>)
    requires BoundaryMetric in ms && AttributionMetric in ms && TemporalMetric in ms && HallucinationMetric in ms
    requires ms[BoundaryMetric].weight == 0.30 && ms[AttributionMetric].weight == 0.25
    requires ms[TemporalMetric].weight == 0.25 && ms[HallucinationMetric].weight == 0.20
    ensures Covers(MetricOrder, ms)
    ensures WeightedSum(EntriesOf(MetricOrder, ms)) ==
      0.30 * ms[BoundaryMetric].score + 0.25 * ms[AttributionMetric].score
      + 0.25 * ms[TemporalMetric].score + 0.20 * ms[HallucinationMetric].score
  {
    var es := EntriesOf(MetricOrder, ms);
    assert es[..0] == [] && es[..4] == es;
    PrefixStep(es, 0);
    PrefixStep(es, 1);
    PrefixStep(es, 2);
    PrefixStep(es, 3);
  }

  class KnowledgeAwarenessEvaluator {
    /** The evaluator's BaseEvaluator part. */
    const base: BaseEvaluator
    var results: Ledger

    ghost predicate Valid()
      reads this, base
    {
      && base.Valid() && base.Bounded()
      && BoundaryMetric in base.metrics && AttributionMetric in base.metrics
      && TemporalMetric in base.metrics && HallucinationMetric in base.metrics
      && LedgerValid(results)
    }

    /** Registers the four metrics with their weights and score 0.0 and starts
        an empty ledger; the four registrations are all admitted and fill the
        weight budget exactly. */
    constructor (weight: real)
      ensures Valid() && fresh(base)
      ensures base.name == EvaluatorName && base.weight == weight
      ensures base.order == [BoundaryMetric, AttributionMetric, TemporalMetric, HallucinationMetric]
      ensures base.metrics == map[BoundaryMetric := Weighted(0.30, 0.0), AttributionMetric := Weighted(0.25, 0.0),
                                  TemporalMetric := Weighted(0.25, 0.0), HallucinationMetric := Weighted(0.20, 0.0)]
      ensures base.TotalMetricWeight() == 1.0
      ensures results == InitialLedger
    {
      base := new BaseEvaluator(EvaluatorName, weight);
      results := InitialLedger;
      new;
      RegisterAll(base);
    }

    /** `evaluate_knowledge_boundary`. */
    method EvaluateKnowledgeBoundary(response: string, data: BoundaryData) returns (score: real)
      requires Valid()
      modifies this`results
      ensures Valid()
      ensures score == BoundaryScore(response, data)
      ensures results == old(results).(boundary := BoundaryAfter(old(results).boundary, response, data))
    {
      BoundaryStep(results, response, data);
      var b;
      score, b := BoundaryRoutine(results.boundary, response, data);
      results := results.(boundary := b);
    }

    /** `evaluate_source_attribution`. */
    method EvaluateSourceAttribution(response: string, data: AttributionData) returns (score: real)
      requires Valid()
      modifies this`results
      ensures Valid()
      ensures score == AttributionScore(response, data)
      ensures results == old(results).(attribution := AttributionAfter(old(results).attribution, response, data))
    {
      AttributionStep(results, response, data);
      var a;
      score, a := AttributionRoutine(results.attribution, response, data);
      results := results.(attribution := a);
    }

    /** `evaluate_temporal_awareness`. */
    method EvaluateTemporalAwareness(response: string, data: TemporalData) returns (score: real)
      requires Valid()
      modifies this`results
      ensures Valid()
      ensures score == TemporalScore(response, data)
      ensures results == old(results).(temporal := TemporalAfter(old(results).temporal, response, data))
    {
      TemporalStep(results, response, data);
      var t;
      score, t := TemporalRoutine(results.temporal, response, data);
      results := results.(temporal := t);
    }

    /** `evaluate_hallucination_rate`. */
    method EvaluateHallucinationRate(response: string, data: FactualData) returns (score: real)
      requires Valid()
      modifies this`results
      ensures Valid()
      ensures score == HallucinationScore(data)
      ensures results == old(results).(hallucination := HallucinationAfter(old(results).hallucination, response, data))
    {
      HallucinationStep(results, response, data);
      var h;
      score, h := HallucinationRoutine(results.hallucination, response, data);
      results := results.(hallucination := h);
    }

    /** `set_metric_score` with a routine's score: the metric is registered
        and the score is in [0, 1], so the store is admitted. */
    method StoreScore(metricName: string, score: real)
      requires Valid() && metricName in base.metrics && InRange(score)
      modifies base`metrics
      ensures Valid()
      ensures base.metrics == old(base.metrics)[metricName := Weighted(old(base.metrics)[metricName].weight, score)]
    {
      var _ := base.SetMetricScore(metricName, score);
    }

    /** The `if knowledge_boundary_data:` step of `evaluate`. */
    method RunBoundary(response: string, kb: Option<BoundaryData>)
      requires Valid()
      modifies this`results, base`metrics
      ensures Valid()
      ensures results == old(results).(boundary := if kb.Some? then BoundaryAfter(old(results).boundary, response, kb.value) else old(results).boundary)
      ensures base.metrics == StoreIf(old(base.metrics), BoundaryMetric, if kb.Some? then Some(BoundaryScore(response, kb.value)) else None)
    {
      if kb.Some? {
        var s := EvaluateKnowledgeBoundary(response, kb.value);
        StoreScore(BoundaryMetric, s);
      }
    }

    /** The `if source_attribution_data:` step of `evaluate`. */
    method RunAttribution(response: string, sa: Option<AttributionData>)
      requires Valid()
      modifies this`results, base`metrics
      ensures Valid()
      ensures results == old(results).(attribution := if sa.Some? then AttributionAfter(old(results).attribution, response, sa.value) else old(results).attribution)
      ensures base.metrics == StoreIf(old(base.metrics), AttributionMetric, if sa.Some? then Some(AttributionScore(response, sa.value)) else None)
    {
      if sa.Some? {
        var s := EvaluateSourceAttribution(response, sa.value);
        StoreScore(AttributionMetric, s);
      }
    }

    /** The `if temporal_awareness_data:` step of `evaluate`. */
    method RunTemporal(response: string, ta: Option<TemporalData>)
      requires Valid()
      modifies this`results, base`metrics
      ensures Valid()
      ensures results == old(results).(temporal := if ta.Some? then TemporalAfter(old(results).temporal, response, ta.value) else old(results).temporal)
      ensures base.metrics == StoreIf(old(base.metrics), TemporalMetric, if ta.Some? then Some(TemporalScore(response, ta.value)) else None)
    {
      if ta.Some? {
        var s := EvaluateTemporalAwareness(response, ta.value);
        StoreScore(TemporalMetric, s);
      }
    }

    /** The `if factual_accuracy_data:` step of `evaluate`. */
    method RunHallucination(response: string, fa: Option<FactualData>)
      requires Valid()
      modifies this`results, base`metrics
      ensures Valid()
      ensures results == old(results).(hallucination := if fa.Some? then HallucinationAfter(old(results).hallucination, response, fa.value) else old(results).hallucination)
      ensures base.metrics == StoreIf(old(base.metrics), HallucinationMetric, if fa.Some? then Some(HallucinationScore(fa.value)) else None)
    {
      if fa.Some? {
        var s := EvaluateHallucinationRate(response, fa.value);
        StoreScore(HallucinationMetric, s);
      }
    }

    /** `evaluate`: runs the routine of every present bundle and stores its
        score; each such store is admitted, since the metric is registered and
        the score is in [0, 1].  Returns the dimension score, in [0, 1]. */
    method Evaluate(response: string, kb: Option<BoundaryData>, sa: Option<AttributionData>,
                    ta: Option<TemporalData>, fa: Option<FactualData>) returns (r: real)
      requires Valid()
      modifies this`results, base`metrics
      ensures Valid()
      ensures results == LedgerAfter(old(results), response, kb, sa, ta, fa)
      ensures base.metrics == ScoresAfter(old(base.metrics), response, kb, sa, ta, fa)
      ensures r == base.Score() && 0.0 <= r <= 1.0
    {
      RunBoundary(response, kb);
      RunAttribution(response, sa);
      RunTemporal(response, ta);
      RunHallucination(response, fa);
      r := base.CalculateDimensionScore();
      base.ScoreInUnit();
    }

    /** The record that `save_results` writes: the base record with the ledger. */
    function Record(): (rec: BaseRecord<Ledger>)
      reads this, base
      requires Valid()
      ensures rec.dimension == base.name && rec.metrics == base.metrics && rec.additionalData == results
      ensures rec.dimensionScore == base.Score() && 0.0 <= rec.dimensionScore <= 1.0
    {
      base.ScoreInUnit();
      base.Record(results)
    }
  }
}
