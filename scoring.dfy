/**
 * The scoring calculator (trigger/scoring.py): a similarity score between two
 * instances and a match decision against a threshold.
 */
module Scores {
  import opened Errors
  import opened Transformers

  /** The result of comparing a query instance with the stored instance of `scoredTag`. */
  datatype Scoring = Scoring(scoredTag: string, scoredInstance: Instance, similarityScore: real, isMatch: bool)

  /** `ScoringOptions`: the score a comparison needs to count as a match. */
  datatype ScoringOptions = ScoringOptions(scoreToBeMatch: real)

  /** The external `similarity_metric(embedding1, embedding2)`; its formula is not part of the model. */
  type SimilarityMetric = (Embedding, Embedding) -> real

  /** A calculator fixes its options at construction; scoring never changes them. */
  datatype ScoringCalculator = ScoringCalculator(scoringOptions: ScoringOptions, similarityMetric: SimilarityMetric)

  /** `ScoringCalculator(scoring_options=ScoringOptions())`: without options the threshold is 0.5. */
  function NewScoringCalculator(options: Option<ScoringOptions>, metric: SimilarityMetric): (c: ScoringCalculator)
    ensures options.None? ==> c.scoringOptions.scoreToBeMatch == 0.5
    ensures options.Some? ==> c.scoringOptions == options.value
    ensures c.similarityMetric == metric
  {
    match options
    case None => ScoringCalculator(ScoringOptions(0.5), metric)
    case Some(o) => ScoringCalculator(o, metric)
  }

  /** A scoring whose match flag agrees with its score and the threshold. */
  ghost predicate Calibrated(s: Scoring, threshold: real)
  {
    s.isMatch == (s.similarityScore >= threshold)
  }

  /** `ScoringCalculator.__call__(instance1, tag, instance2)`. */
  function Score(calculator: ScoringCalculator, instance1: Instance, tag: string, instance2: Instance): (s: Scoring)
    ensures s.scoredTag == tag && s.scoredInstance == instance2
    ensures s.similarityScore == calculator.similarityMetric(instance1.embedding, instance2.embedding)
    ensures Calibrated(s, calculator.scoringOptions.scoreToBeMatch)
  {
    var similarityScore := calculator.similarityMetric(instance1.embedding, instance2.embedding);
    Scoring(tag, instance2, similarityScore, similarityScore >= calculator.scoringOptions.scoreToBeMatch)
  }

  /** The scoring sees the query instance only through its embedding. */
  lemma ScoreDependsOnEmbeddings(calculator: ScoringCalculator, a: Instance, b: Instance, tag: string, stored: Instance)
    requires a.embedding == b.embedding
    ensures Score(calculator, a, tag, stored) == Score(calculator, b, tag, stored)
  {
  }

  /** Raising the threshold can only turn matches into non-matches, never the reverse. */
  lemma MatchMonotoneInThreshold(metric: SimilarityMetric, low: real, high: real, a: Instance, tag: string, b: Instance)
    requires low <= high
    ensures Score(ScoringCalculator(ScoringOptions(high), metric), a, tag, b).isMatch
        ==> Score(ScoringCalculator(ScoringOptions(low), metric), a, tag, b).isMatch
  {
  }
}
