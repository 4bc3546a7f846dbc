/**
 * The command protocol the orchestrator dispatches (`trigger.operations`):
 * one constructor per `OperationType`, carrying that type's payload, and the
 * opaque evaluation reports produced by the external evaluators.
 */
module Operations {
  import opened Errors
  import opened Transformers
  import opened Scores
  import opened Clusters

  /** A `CalculateMatchesInfo` handed to the match evaluator. */
  datatype MatchRequest = MatchRequest(transformerKey: Option<string>, value: Value)

  datatype Operation =
    | Add(tag: string, transformerKey: Option<string>, value: Value)
    | Remove(tag: string)
    | Update(tag: string, transformerKey: Option<string>, value: Value)
    | CalculateScores(transformerKey: Option<string>, value: Value)
    | CalculateMatches(transformerKey: Option<string>, value: Value)
    | EvaluateClusters
    | EvaluateMatches(requests: seq<MatchRequest>, fetchInstance: bool)
    | EvaluateClustersAndMatches(requests: seq<MatchRequest>, fetchInstance: bool)

  /** An evaluation report: a dictionary whose entries are opaque, or nested reports. */
  datatype ReportValue = Scalar(x: real) | Text(s: string) | Nested(fields: map<string, ReportValue>)
  type Report = map<string, ReportValue>

  /** The per-value breakdown key of a match report. */
  const ByValueKey: string := "by_value"
  /** The key under which the combined evaluation stores the match report. */
  const MatchesResultsKey: string := "matches_results"

  /** What the evaluators can observe of the orchestrator: its store and what its index was told. */
  datatype TriggerState = TriggerState(instances: map<string, Instance>, processorHistory: seq<ProcessorCall>)

  /** `eval_cluster(self)` and `eval_matches(self, values)`; both are external and read-only. */
  datatype Evaluators = Evaluators(
    evalCluster: TriggerState -> Report,
    evalMatches: (TriggerState, seq<MatchRequest>) -> Report)

  /** What `on_operation` returns: nothing, a list of scorings, or a report. */
  datatype Outcome = NoResult | ScoringList(scorings: seq<Scoring>) | Evaluation(report: Report)
}
