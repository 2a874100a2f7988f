/** The standalone knowledge-awareness scorers: each maps a response and a list
    of test records to a score in [0, 1] by counting the records the response
    handles correctly.  Each scorer is a specification function over the whole
    list and a loop method proved equal to it.  A key missing from a record is
    an `Option` field; its default is applied where the scorer reads it. */
module KnowledgeMetrics {
  import opened Wrappers
  import opened Text
  import opened Tally
  import opened Phrases

  // ---------------------------------------------------------------- boundary

  /** A question record; only its `answerable` flag is read. */
  datatype Question = Question(answerable: Option<bool>)

  /** A missing `answerable` counts as answerable. */
  predicate IsUnanswerable(q: Question) {
    !q.answerable.GetOr(true)
  }

  function UnanswerableTest(): Question -> bool {
    q => IsUnanswerable(q)
  }

  /** An unanswerable question that the response meets with an admission of
      not knowing; the admission test reads only the response. */
  function AcknowledgedTest(response: string): Question -> bool {
    q => IsUnanswerable(q) && AnyPhraseCI(response, UncertaintyPhrases)
  }

  /** `knowledge_boundary_recognition`: 0.0 for no questions, 1.0 when none is
      unanswerable, otherwise the share of unanswerable questions acknowledged. */
  function BoundaryRecognitionScore(response: string, qs: seq<Question>): real {
    if qs == [] then 0.0
    else if Count(qs, UnanswerableTest()) == 0 then 1.0
    else Ratio(Count(qs, AcknowledgedTest(response)), Count(qs, UnanswerableTest()))
  }

  method KnowledgeBoundaryRecognition(response: string, qs: seq<Question>) returns (r: real)
    ensures r == BoundaryRecognitionScore(response, qs)
  {
    if |qs| == 0 {
      return 0.0;
    }
    var correct := 0;
    var unanswerable := 0;
    var i := 0;
    while i < |qs|
      invariant 0 <= i <= |qs|
      invariant correct == Count(qs[..i], AcknowledgedTest(response))
      invariant unanswerable == Count(qs[..i], UnanswerableTest())
    {
      CountStep(qs, AcknowledgedTest(response), i);
      CountStep(qs, UnanswerableTest(), i);
      if !qs[i].answerable.GetOr(true) {
        unanswerable := unanswerable + 1;
        var acknowledged := AnyPhraseCI(response, UncertaintyPhrases);
        if acknowledged {
          correct := correct + 1;
        }
      }
      i := i + 1;
    }
    assert qs[..|qs|] == qs;
    r := if unanswerable > 0 then correct as real / unanswerable as real else 1.0;
  }

  /** The phrase test ignores the question, so the score is all or nothing:
      1.0 exactly when there are questions and either none is unanswerable or
      the response admits not knowing. */
  lemma BoundaryRecognitionAllOrNothing(response: string, qs: seq<Question>)
    ensures BoundaryRecognitionScore(response, qs) == 0.0 || BoundaryRecognitionScore(response, qs) == 1.0
    ensures BoundaryRecognitionScore(response, qs) == 1.0 <==>
      qs != [] && (Count(qs, UnanswerableTest()) == 0 || AnyPhraseCI(response, UncertaintyPhrases))
  {
    if AnyPhraseCI(response, UncertaintyPhrases) {
      CountAgree(qs, AcknowledgedTest(response), UnanswerableTest());
    } else {
      CountZeroIff(qs, AcknowledgedTest(response));
    }
  }

  // ------------------------------------------------------------- attribution

  /** A fact record: its text, its correct source and the sources that would
      be fabrications.  Missing text or source reads as "". */
  datatype FactRecord = FactRecord(text: Option<string>, source: Option<string>, otherSources: seq<string>)

  /** A fact without text or without a source is skipped, yet still counted
      in the denominators. */
  predicate Skipped(f: FactRecord) {
    f.text.GetOr("") == "" || f.source.GetOr("") == ""
  }

  /** The response names both the correct source and the fact. */
  predicate Cited(response: string, f: FactRecord) {
    !Skipped(f) && ContainsCI(response, f.source.GetOr("")) && ContainsCI(response, f.text.GetOr(""))
  }

  /** The response names the fact and one of the wrong sources. */
  predicate Fabricated(response: string, f: FactRecord) {
    exists k | 0 <= k < |f.otherSources| ::
      ContainsCI(response, f.otherSources[k]) && ContainsCI(response, f.text.GetOr(""))
  }

  function CitedTest(response: string): FactRecord -> bool {
    f => Cited(response, f)
  }

  function UnfabricatedTest(response: string): FactRecord -> bool {
    f => !Skipped(f) && !Fabricated(response, f)
  }

  /** `source_attribution`: 0.0 for no facts, otherwise 60% citation accuracy
      plus 40% fabrication avoidance, both over all facts. */
  function SourceAttributionScore(response: string, facts: seq<FactRecord>): real {
    if facts == [] then 0.0
    else
      var citationAccuracy := Ratio(Count(facts, CitedTest(response)), |facts|);
      var fabricationAvoidance := Ratio(Count(facts, UnfabricatedTest(response)), |facts|);
      0.6 * citationAccuracy + 0.4 * fabricationAvoidance
  }

  lemma SourceAttributionInUnit(response: string, facts: seq<FactRecord>)
    ensures 0.0 <= SourceAttributionScore(response, facts) <= 1.0
    ensures SourceAttributionScore(response, facts) == 1.0 ==>
      forall i :: 0 <= i < |facts| ==> Cited(response, facts[i])
    ensures facts != [] ==>
      (SourceAttributionScore(response, facts) == 1.0 <==>
        forall i :: 0 <= i < |facts| ==> Cited(response, facts[i]) && !Fabricated(response, facts[i]))
    ensures SourceAttributionScore(response, facts) == 0.0 <==>
      forall i :: 0 <= i < |facts| ==>
        !Cited(response, facts[i]) && (Skipped(facts[i]) || Fabricated(response, facts[i]))
  {
    if facts != [] {
      var cited, unfabricated := CitedTest(response), UnfabricatedTest(response);
      CountFullIff(facts, cited);
      CountFullIff(facts, unfabricated);
      CountZeroIff(facts, cited);
      CountZeroIff(facts, unfabricated);
    }
  }

  method SourceAttribution(response: string, facts: seq<FactRecord>) returns (r: real)
    ensures r == SourceAttributionScore(response, facts)
  {
    if |facts| == 0 {
      return 0.0;
    }
    var citation := 0;
    var unfabricated := 0;
    var i := 0;
    while i < |facts|
      invariant 0 <= i <= |facts|
      invariant citation == Count(facts[..i], CitedTest(response))
      invariant unfabricated == Count(facts[..i], UnfabricatedTest(response))
    {
      CountStep(facts, CitedTest(response), i);
      CountStep(facts, UnfabricatedTest(response), i);
      var fact := facts[i];
      var text := fact.text.GetOr("");
      var source := fact.source.GetOr("");
      if text != "" && source != "" {
        if ContainsCI(response, source) && ContainsCI(response, text) {
          citation := citation + 1;
        }
        var fabricated := false;
        var j := 0;
        while j < |fact.otherSources|
          invariant 0 <= j <= |fact.otherSources|
          invariant !fabricated ==> forall k :: 0 <= k < j ==>
            !(ContainsCI(response, fact.otherSources[k]) && ContainsCI(response, text))
          invariant fabricated ==> Fabricated(response, fact)
        {
          if ContainsCI(response, fact.otherSources[j]) && ContainsCI(response, text) {
            fabricated := true;
            break;
          }
          j := j + 1;
        }
        if !fabricated {
          unfabricated := unfabricated + 1;
        }
      }
      i := i + 1;
    }
    assert facts[..|facts|] == facts;
    r := 0.6 * (citation as real / |facts| as real) + 0.4 * (unfabricated as real / |facts| as real);
  }

  // ---------------------------------------------------------------- temporal

  /** An event record; only its `before_cutoff` flag is read. */
  datatype EventRecord = EventRecord(beforeCutoff: Option<bool>)

  /** After the cutoff the response must acknowledge it; before the cutoff
      (the default) it must not sound uncertain. */
  predicate TemporalCorrect(response: string, e: EventRecord) {
    if !e.beforeCutoff.GetOr(true) then AnyPhraseCI(response, CutoffPhrases)
    else !AnyPhraseCI(response, ScorerUncertaintyPhrases)
  }

  function TemporalTest(response: string): EventRecord -> bool {
    e => TemporalCorrect(response, e)
  }

  /** `temporal_awareness`: 0.0 for no events, otherwise the share handled correctly. */
  function TemporalAwarenessScore(response: string, events: seq<EventRecord>): (r: real)
    ensures 0.0 <= r <= 1.0
    ensures events == [] ==> r == 0.0
  {
    if events == [] then 0.0 else Ratio(Count(events, TemporalTest(response)), |events|)
  }

  method TemporalAwareness(response: string, events: seq<EventRecord>) returns (r: real)
    ensures r == TemporalAwarenessScore(response, events)
  {
    if |events| == 0 {
      return 0.0;
    }
    var correct := 0;
    var i := 0;
    while i < |events|
      invariant 0 <= i <= |events|
      invariant correct == Count(events[..i], TemporalTest(response))
    {
      CountStep(events, TemporalTest(response), i);
      if !events[i].beforeCutoff.GetOr(true) {
        if AnyPhraseCI(response, CutoffPhrases) {
          correct := correct + 1;
        }
      } else {
        if !AnyPhraseCI(response, ScorerUncertaintyPhrases) {
          correct := correct + 1;
        }
      }
      i := i + 1;
    }
    assert events[..|events|] == events;
    r := correct as real / |events| as real;
  }

  // ----------------------------------------------------------- hallucination

  /** A statement record; a missing statement reads as "", a missing `correct` as false. */
  datatype StatementRecord = StatementRecord(statement: Option<string>, correct: Option<bool>)

  /** The statement is non-empty, occurs in the response and is marked correct. */
  predicate Confirmed(response: string, f: StatementRecord) {
    var s := f.statement.GetOr("");
    s != "" && ContainsCI(response, s) && f.correct.GetOr(false)
  }

  function ConfirmedTest(response: string): StatementRecord -> bool {
    f => Confirmed(response, f)
  }

  /** `hallucination_rate`: 0.0 for no facts, otherwise the share of confirmed
      statements over all records. */
  function HallucinationScore(response: string, facts: seq<StatementRecord>): (r: real)
    ensures 0.0 <= r <= 1.0
    ensures facts == [] ==> r == 0.0
  {
    if facts == [] then 0.0 else Ratio(Count(facts, ConfirmedTest(response)), |facts|)
  }

  method HallucinationRate(response: string, facts: seq<StatementRecord>) returns (r: real)
    ensures r == HallucinationScore(response, facts)
  {
    if |facts| == 0 {
      return 0.0;
    }
    var correct := 0;
    var i := 0;
    while i < |facts|
      invariant 0 <= i <= |facts|
      invariant correct == Count(facts[..i], ConfirmedTest(response))
    {
      CountStep(facts, ConfirmedTest(response), i);
      var statement := facts[i].statement.GetOr("");
      var isCorrect := facts[i].correct.GetOr(false);
      if statement != "" && ContainsCI(response, statement) {
        if isCorrect {
          correct := correct + 1;
        }
      }
      i := i + 1;
    }
    assert facts[..|facts|] == facts;
    r := correct as real / |facts| as real;
  }

  /** A statement not found in the response never counts, whatever its mark. */
  lemma UnmentionedNeverCounts(response: string, facts: seq<StatementRecord>)
    requires facts != []
    requires forall i :: 0 <= i < |facts| ==> !ContainsCI(response, facts[i].statement.GetOr(""))
    ensures HallucinationScore(response, facts) == 0.0
  {
    CountZeroIff(facts, ConfirmedTest(response));
  }

  // -------------------------------------------------------------- extraction

  /** A sentence kept as a factual statement: not a question or exclamation,
      free of opinion markers (case-sensitive) and at least five words long. */
  predicate IsFactual(s: string) {
    && !EndsWith(s, '?') && !EndsWith(s, '!')
    && !(exists k | 0 <= k < |OpinionMarkers| :: Contains(s, OpinionMarkers[k]))
    && WordCount(s) >= 5
  }

  /** The factual sentences, in order. */
  function Factual(sentences: seq<string>): (r: seq<string>)
    ensures |r| <= |sentences|
    ensures forall k :: 0 <= k < |r| ==> IsFactual(r[k])
  {
    if sentences == [] then []
    else
      var last := sentences[|sentences| - 1];
      Factual(sentences[..|sentences| - 1]) + (if IsFactual(last) then [last] else [])
  }

  /** How many statements the extraction keeps: the cap is tested only after
      an append, so a cap of zero or less still lets the first one through. */
  function Cap(maxStatements: int): nat {
    if maxStatements < 1 then 1 else maxStatements
  }

  predicate IsSubsequence(r: seq<string>, s: seq<string>)
    decreases |s|
  {
    if r == [] then true
    else if s == [] then false
    else if r[|r| - 1] == s[|s| - 1] then IsSubsequence(r[..|r| - 1], s[..|s| - 1])
    else IsSubsequence(r, s[..|s| - 1])
  }

  /** The factual sentences form a subsequence of the input. */
  lemma {:induction false} FactualIsSubsequence(sentences: seq<string>)
    ensures IsSubsequence(Factual(sentences), sentences)
  {
    if sentences != [] {
      var init := sentences[..|sentences| - 1];
      FactualIsSubsequence(init);
      if !IsFactual(sentences[|sentences| - 1]) {
        assert Factual(sentences) == Factual(init);
        SubsequenceOfLonger(Factual(init), init, sentences[|sentences| - 1]);
      }
    }
  }

  lemma {:induction false} SubsequenceOfLonger(r: seq<string>, s: seq<string>, x: string)
    requires IsSubsequence(r, s)
    ensures IsSubsequence(r, s + [x])
    decreases |s|, 1
  {
    assert (s + [x])[..|s|] == s;
    if r != [] && r[|r| - 1] == x {
      SubsequenceOfPrefix(r, s);
    }
  }

  /** Dropping the last member of a subsequence keeps it a subsequence. */
  lemma {:induction false} SubsequenceOfPrefix(r: seq<string>, s: seq<string>)
    requires r != [] && IsSubsequence(r, s)
    ensures IsSubsequence(r[..|r| - 1], s)
    decreases |s|, 0
  {
    if r[..|r| - 1] != [] && s != [] {
      var s' := s[..|s| - 1];
      if r[|r| - 1] == s[|s| - 1] {
        SubsequenceOfLonger(r[..|r| - 1], s', s[|s| - 1]);
        assert s' + [s[|s| - 1]] == s;
      } else {
        SubsequenceOfPrefix(r, s');
        SubsequenceOfLonger(r[..|r| - 1], s', s[|s| - 1]);
        assert s' + [s[|s| - 1]] == s;
      }
    }
  }

  /** `extract_factual_statements` over already split sentences: the first
      `Cap(maxStatements)` factual sentences, or all of them when there are fewer. */
  method ExtractFactualStatements(sentences: seq<string>, maxStatements: int) returns (statements: seq<string>)
    ensures statements == Factual(sentences)[..Min(|Factual(sentences)|, Cap(maxStatements))]
  {
    statements := [];
    var i := 0;
    while i < |sentences|
      invariant 0 <= i <= |sentences|
      invariant statements == Factual(sentences[..i])
      invariant |statements| < Cap(maxStatements)
    {
      var sentence := sentences[i];
      assert sentences[..i + 1][..i] == sentences[..i];
      if EndsWith(sentence, '?') || EndsWith(sentence, '!') {
        i := i + 1;
        continue;
      }
      if exists k | 0 <= k < |OpinionMarkers| :: Contains(sentence, OpinionMarkers[k]) {
        i := i + 1;
        continue;
      }
      if WordCount(sentence) < 5 {
        i := i + 1;
        continue;
      }
      statements := statements + [sentence];
      if |statements| >= maxStatements {
        FactualPrefix(sentences, i + 1);
        return;
      }
      i := i + 1;
    }
    assert sentences[..|sentences|] == sentences;
  }

  function Min(a: int, b: int): int {
    if a <= b then a else b
  }

  /** The factual sentences of a prefix are a prefix of the factual sentences. */
  lemma {:induction false} FactualPrefix(sentences: seq<string>, i: int)
    requires 0 <= i <= |sentences|
    ensures |Factual(sentences[..i])| <= |Factual(sentences)|
    ensures Factual(sentences)[..|Factual(sentences[..i])|] == Factual(sentences[..i])
    decreases |sentences|
  {
    if i < |sentences| {
      var init := sentences[..|sentences| - 1];
      assert init[..i] == sentences[..i];
      FactualPrefix(init, i);
    } else {
      assert sentences[..i] == sentences;
    }
  }

  /** The extraction keeps at most `maxStatements` statements when that is
      positive, and at most one otherwise. */
  lemma ExtractionLength(sentences: seq<string>, maxStatements: int)
    ensures |Factual(sentences)[..Min(|Factual(sentences)|, Cap(maxStatements))]| <= Cap(maxStatements)
    ensures maxStatements >= 1 ==> |Factual(sentences)[..Min(|Factual(sentences)|, Cap(maxStatements))]| <= maxStatements
    ensures maxStatements < 1 && Factual(sentences) != [] ==>
      Factual(sentences)[..Min(|Factual(sentences)|, Cap(maxStatements))] == [Factual(sentences)[0]]
  {
  }
}
