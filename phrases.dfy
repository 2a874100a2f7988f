/** The fixed phrase lists the knowledge-awareness scorers search a response
    for, case-insensitively, and the opinion markers that disqualify a sentence
    as a factual statement (searched case-sensitively). */
module Phrases {

  /** Admissions of not knowing: the unanswerable-question test of both the
      evaluator and the standalone scorer. */
  const UncertaintyPhrases: seq<string> := [
    "I don't know", "I don't have", "I'm not sure", "I cannot", "I can't",
    "uncertain", "beyond my knowledge", "after my training", "unable to provide",
    "don't have information", "don't have data", "don't have access",
    "outside my training", "lack the necessary", "would need to",
    "unable to verify", "don't have enough"]

  /** Acknowledgements of a training cutoff, for events after it. */
  const CutoffPhrases: seq<string> := [
    "after my training", "after my knowledge cutoff", "after my training data",
    "don't have information after", "beyond my training", "occurred after",
    "happened after", "updates after", "developments after",
    "cutoff date", "training cutoff", "knowledge cutoff"]

  /** The evaluator's test for misplaced uncertainty about an event before the cutoff. */
  const KnownEventUncertaintyPhrases: seq<string> := [
    "I don't know", "I don't have", "I'm not sure", "I cannot", "I can't",
    "uncertain", "beyond my knowledge", "after my training", "unable to provide"]

  /** The standalone scorer's version of the same test, without "after my training". */
  const ScorerUncertaintyPhrases: seq<string> := [
    "I don't know", "I don't have", "I'm not sure", "I cannot", "I can't",
    "uncertain", "beyond my knowledge", "unable to provide"]

  const OpinionMarkers: seq<string> := [
    "I believe", "I think", "in my opinion", "might", "may", "could", "possibly"]
}
