# Entity-matching orchestrator — a Dafny model

This project models the core of an incremental, embedding-based entity matcher.
`TriggerInterface` keeps an entity store, `instances_map`, that maps each tag to an
`Instance` (a raw value and its embedding) and mirrors every change to it into an
external cluster index, the `Processor`. To answer a score or match query it asks
the index which cluster the query embedding would join. It then scores the query
against the stored instance of every tag listed in that cluster, skipping tags the
store does not hold. A `ScoringCalculator` decides each match by comparing an
external similarity metric with a threshold. `on_operation` dispatches a closed set
of commands: ADD, REMOVE, UPDATE, CALCULATE_SCORES, CALCULATE_MATCHES and three
EVALUATE_* commands.

Files and modules:

- `errors.dfy` (`Errors`): `Option`, plus `Result` carrying the Python exceptions
  the core raises: `AssertionError`, `KeyError(key)` and `IndexError`.
- `seqs.dfy` (`Seqs`): Python's `zip`, `filter(None, ...)` over optional values, subsequences and distinctness.
- `transformer_pipeline.dfy` (`Transformers`): `Instance`, the raw `Value` (a numpy
  array, an Instance, or anything else) and the two pipelines as a closed datatype.
- `scoring.dfy` (`Scores`): `Scoring`, `ScoringOptions`, `ScoringCalculator`.
- `processor.dfy` (`Clusters`): the cluster index as a class. It records every call
  it receives (`history`) and the tags it knows (`tags`, ghost). `predict` and
  `get_tags_in_cluster` are arbitrary functions of that history, chosen when the
  index is built.
- `operations.dfy` (`Operations`): the command protocol as a tagged union, the
  opaque evaluation reports and the external evaluators.
- `trigger_interface.dfy` (`Trigger`): the orchestrator class, the reference
  functions its methods are proved against, and the lemmas.

Invariant I1: the store and the index know the same tags (`Consistent()`). No
method needs it as a precondition. Each mutating method states the exact new
state of both stores and proves `old(Consistent()) ==> Consistent()`.

Three behaviours of the code that the model keeps as written:

- The identity pipeline asserts `value` and `embedding` one at a time
  (interference/transformers/transformer_pipeline.py:30-31), so an object that
  lacks either attribute fails.
- `on_operation` discards the boolean that `update` returns and returns nothing
  for UPDATE (trigger/trigger_interface.py:176-178).
- `remove` calls `processor.remove(tag)` before `del self.instances_map[tag]`, so
  for an absent tag the index has already been told when `KeyError` is raised,
  and the tags earlier in the list stay removed (trigger/trigger_interface.py:86-89).

## Model

| member | source | states |
|---|---|---|
| `Transformers.NumpyToInstance` | interference/transformers/transformer_pipeline.py:21-25 | succeeds exactly on numpy arrays; the result's value is the argument and its embedding is the array itself; any other input fails the assert |
| `Transformers.IdentityTransform` | interference/transformers/transformer_pipeline.py:27-32 | succeeds exactly on Instances and returns the argument unchanged; anything else fails the `hasattr` asserts |
| `Transformers.Transform` | interference/transformers/transformer_pipeline.py:15-32 | for each pipeline variant: when the call succeeds and what it returns; a failure is always an `AssertionError` |
| `Transformers.IdentityIdempotent` | interference/transformers/transformer_pipeline.py:29-32 | applying the identity pipeline to its own output gives the same result |
| `Transformers.IdentityAfterNumpy` | interference/transformers/transformer_pipeline.py:25-32 | the identity pipeline accepts every Instance the numpy pipeline builds and leaves it unchanged |
| `Scores.NewScoringCalculator` | trigger/scoring.py:19-27 | without options the match threshold is 0.5; given options are kept as they are; the metric is kept |
| `Scores.Score` | trigger/scoring.py:29-31 | the scoring names the given tag and the second instance; its score is the metric of the two embeddings; it is a match exactly when the score reaches the threshold |
| `Scores.ScoreDependsOnEmbeddings` | trigger/scoring.py:30 | two query instances with equal embeddings get equal scorings |
| `Scores.MatchMonotoneInThreshold` | trigger/scoring.py:31 | a match under a higher threshold is also a match under a lower one |
| `Seqs.Zip` | trigger/trigger_interface.py:53 | `zip` truncates to the shorter list and pairs equal positions |
| `Trigger.TriggerInterface.constructor` | trigger/trigger_interface.py:18-27 | the collaborators are kept; without a `scoring_calculator` the default calculator (threshold 0.5, the module's metric) is used; the store starts empty, and the two stores agree exactly when the index starts with no tags |
| `Trigger.TriggerInterface.FindTransformerForKey` | trigger/trigger_interface.py:29-35 | finds a transformer exactly for registered keys and returns the registered one |
| `Trigger.TriggerInterface.CreateInstanceOrNone` | trigger/trigger_interface.py:37-48 | returns nothing exactly when the key is unknown; with no key it behaves like the numpy pipeline; with a registered key it behaves like that transformer; it only ever fails with `AssertionError` |
| `Trigger.TriggerInterface.CreateInstancesFilterNone` | trigger/trigger_interface.py:50-56 | fails exactly when some zipped item fails; the result is never longer than the zipped input; it has full length exactly when every key resolves; each instance comes from some input item |
| `Trigger.TriggerInterface.CreateInstancesFilterNoneIsFilter` | trigger/trigger_interface.py:50-56 | on success the result is exactly the comprehension of `create_instance_or_none` over `zip(keys, values)` with the `None`s filtered out, in input order |
| `Seqs.SomesCounts` | trigger/trigger_interface.py:56 | `filter(None, ...)` keeps every present value as often as it occurs and nothing else |
| `Seqs.SomesAppend` | trigger/trigger_interface.py:56 | filtering a concatenation is the concatenation of the filtered parts, so the input order is kept |
| `Seqs.SomesAllPresent` | trigger/trigger_interface.py:56 | when no value is `None`, the filter returns every value at its own position |
| `Trigger.TriggerInterface.AddInstance` | trigger/trigger_interface.py:64-66 | the store maps the tag to the instance; the index learns the tag and receives one `process` call; I1 is preserved |
| `Trigger.TriggerInterface.Add` | trigger/trigger_interface.py:58-62 | a failed conversion raises and changes nothing; otherwise the store is the old store with each zipped pair assigned in order, and the index learns exactly the zipped tags; I1 is preserved |
| `Trigger.TriggerInterface.AddPairs` | trigger/trigger_interface.py:61-62 | the loop of `add` over the zipped pairs: each pair is assigned in order and the index receives one `process` call per pair |
| `Trigger.TriggerInterface.UpdateInstance` | trigger/trigger_interface.py:77-84 | returns true exactly when the tag is stored; if false, nothing changes; if true, only that tag's entry is replaced and the index gets one `update` call; I1 is preserved |
| `Trigger.TriggerInterface.Update` | trigger/trigger_interface.py:68-75 | a failed conversion raises and changes nothing; otherwise the pairs before the first absent tag are applied and no later pair is; returns true exactly when no tag was absent; the store's keys never change; I1 is preserved |
| `Trigger.TriggerInterface.UpdatePairs` | trigger/trigger_interface.py:71-75 | the loop over the zipped pairs with its early exit: the prefix up to the first absent tag is applied to both stores |
| `Trigger.TriggerInterface.Remove` | trigger/trigger_interface.py:86-89 | if every tag is present and none repeats, all of them leave both stores and nothing else changes; otherwise `KeyError` names the first tag `del` cannot find, the earlier tags stay removed, and the index has also been told to remove the failing tag; I1 is preserved |
| `Trigger.RemovableCount` | trigger/trigger_interface.py:86-89 | how many tags `remove` deletes before it fails: every earlier tag was present and not repeated, and the failing tag is absent or repeated |
| `Trigger.RemoveSucceedsIff` | trigger/trigger_interface.py:86-89 | `remove` completes exactly when every tag is in the store and no tag repeats |
| `Trigger.FirstMissing` | trigger/trigger_interface.py:71-73 | the stopping point of `update`: every earlier tag is stored and the tag at that point is not |
| `Trigger.AssignKeys` | trigger/trigger_interface.py:61-66 | assigning pairs adds exactly their tags to the store's keys |
| `Trigger.AssignOthersUnchanged` | trigger/trigger_interface.py:81-82 | entries whose tag is not among the pairs keep their presence and their value |
| `Trigger.AssignLastWins` | trigger/trigger_interface.py:61-66 | after assignment a tag holds the instance of the last pair that names it |
| `Trigger.TriggerInterface.GetInstancesByTag` | trigger/trigger_interface.py:159-165 | returns the stored instances of exactly the requested tags that the store holds, in request order |
| `Trigger.KnownTags` | trigger/trigger_interface.py:159-165 | a tag survives the filter exactly when it was requested and is stored; the filter keeps the request order |
| `Trigger.KnownTagsCounts` | trigger/trigger_interface.py:159-165 | every occurrence of a stored tag is kept and no other tag is, which with the order above fixes the result even with repeated tags |
| `Trigger.KnownTagsAll` | trigger/trigger_interface.py:159-165 | when every requested tag is stored, none is dropped |
| `Trigger.TriggerInterface.CalculateScoringBetweenInstances` | trigger/trigger_interface.py:155-156 | a scoring of the given tag and stored instance, calibrated against the calculator's threshold |
| `Trigger.TriggerInterface.CalculateScoringBetweenInstanceAndTagOrNone` | trigger/trigger_interface.py:145-153 | returns a scoring exactly when the tag is stored, and that scoring compares the query with the stored instance |
| `Trigger.TriggerInterface.ScoringsForTags` | trigger/trigger_interface.py:109-114 | the scored tags are exactly the stored candidate tags, in candidate order, and each scoring uses the stored instance of its tag |
| `Trigger.TriggerInterface.GetScoringsForInstance` | trigger/trigger_interface.py:100-114 | an empty store gives `[]`; otherwise, with `CandidateTags` standing for `get_tags_in_cluster(predict(embedding))` (lines 105-107), the scored tags are the predicted cluster's tags that the store holds, in the index's order; every scoring names a candidate that is stored, carries its stored instance and the metric's score, and is calibrated |
| `Trigger.Matches` | trigger/trigger_interface.py:129-133 | the result is a subsequence of the scorings; it holds each matching scoring as often as the input does and no non-matching one |
| `Trigger.TriggerInterface.GetMatchesForInstance` | trigger/trigger_interface.py:125-133 | exactly the scorings of `get_scorings_for_instance` that match, in the same order; each reaches the threshold |
| `Trigger.TriggerInterface.GetScoringsFor` | trigger/trigger_interface.py:91-97 | fails exactly when conversion fails; otherwise there is one scoring list per converted instance |
| `Trigger.TriggerInterface.GetMatchesFor` | trigger/trigger_interface.py:117-123 | fails exactly when conversion fails; otherwise there is one match list per converted instance |
| `Trigger.TriggerInterface.ScoringsForPairs` | trigger/trigger_interface.py:138-143 | never longer than the pairs; nothing is dropped when every tag is stored; every scoring is the calculator's scoring of some pair's own instance against the stored instance of that pair's tag |
| `Trigger.TriggerInterface.ScoringsForPairsIsFilter` | trigger/trigger_interface.py:138-143 | the result is exactly the per-pair optional scorings with the misses filtered out |
| `Trigger.TriggerInterface.ScoringsForPairsTags` | trigger/trigger_interface.py:138-143 | the scored tags are the pairs' tags that the store holds, in the pairs' order |
| `Trigger.TriggerInterface.CalculateScoringsBetweenValuesAndTags` | trigger/trigger_interface.py:135-143 | fails exactly when conversion fails, and then with `AssertionError`; never longer than the zipped tags; every scoring names a stored tag and its stored instance |
| `Trigger.TriggerInterface.CalculateScoringsBetweenValuesAndTagsIsFilter` | trigger/trigger_interface.py:135-143 | on success the result is exactly the scorings of position `j` of `zip(tags, instances)`, instance `j` against tag `j`'s stored instance, for the positions whose tag is stored, in order |
| `Trigger.DropByValue` | trigger/trigger_interface.py:199-201 | with `fetch_instance` the report is unchanged; without it the `"by_value"` key is gone and every other entry is kept, or `KeyError` is raised when the report has no such key |
| `Trigger.TriggerInterface.OnOperation` | trigger/trigger_interface.py:167-215 | per command: ADD, UPDATE and REMOVE act on both stores like their one-item batch operations and return nothing, with UPDATE's boolean discarded; CALCULATE_SCORES and CALCULATE_MATCHES raise `IndexError` exactly when the key is unknown and change nothing; the EVALUATE_* commands pass the evaluators' reports through, drop `"by_value"` when `fetch_instance` is false, and nest the match report under `"matches_results"`; I1 is preserved |
| `Trigger.TriggerInterface.SingletonCreate` | trigger/trigger_interface.py:50-56 | a one-item conversion gives either the item's instance, nothing, or its error |
| `Trigger.ConsistentStoreSkipsNothing` | trigger/trigger_interface.py:105-114 | when the two stores agree and the index lists only tags it knows, every candidate tag is scored, in the index's order |
| `Trigger.NoDuplicateScoredTags` | trigger/trigger_interface.py:107-133 | when the index lists each cluster tag once, no tag appears twice among the scorings or the matches |
| `Trigger.AddThenRemove` | trigger/trigger_interface.py:167-174 | ADD of a tag followed by REMOVE of it leaves the tag in neither store, and a later score query never returns it |
| `Trigger.TriggerInterface.MisalignedPairsExample` | trigger/trigger_interface.py:58-62 | a concrete batch whose first key is unknown: the code assigns the second item's instance to the first tag |
| `Trigger.TriggerInterface.AlignedPairs` | trigger/trigger_interface.py:50-62 | the intended pairing: every pair's instance is built from the item that carries the pair's own tag |
| `Trigger.TriggerInterface.AlignedAgreesWhenNothingDropped` | trigger/trigger_interface.py:58-75 | when no key is unknown and the lists have equal length, the code's pairing is the intended one |
| `Trigger.TriggerInterface.AlignedAgreesOnSingletons` | trigger/trigger_interface.py:167-178 | for the one-item lists that `on_operation` passes, the code's pairing is the intended one |

## Findings

| source | as written | input that shows it | evidently intended | confidence | as-written member | corrected member |
|---|---|---|---|---|---|---|
| trigger/trigger_interface.py:58-62 (also 68-75) | `add` and `update` zip `tags` against the instance list after the items with an unknown transformer key have been dropped, so each later instance moves onto the previous tag | tags `["a", "b"]`, keys `[unknown, None]`, values `[x, array d]`: tag `"a"` receives `Instance(d, d)` and `"b"` is untouched | drop the item with the unknown key together with its own tag, so `"b"` receives `Instance(d, d)` | not executed; high | `Trigger.TriggerInterface.Add`, `Trigger.TriggerInterface.MisalignedPairsExample` | `Trigger.TriggerInterface.AlignedPairs`, `Trigger.TriggerInterface.AlignedAgreesOnSingletons` |

The batch methods `Add` and `Update` are modelled as the code is written. The
dispatcher only passes one-item lists, and `AlignedAgreesOnSingletons` proves that
the two pairings coincide on those. So the model of `on_operation` has the intended
behaviour. `calculate_scorings_between_values_and_tags`
(trigger/trigger_interface.py:135-143) zips its tags the same way.

## Left out

- Logging: the logger setup and the unknown-key warning (trigger/trigger_interface.py:12-15, 33) are side effects on a global logger.
- `describe()` of the orchestrator and of the calculator (trigger/trigger_interface.py:217-221, trigger/scoring.py:33-39) only build diagnostic dictionaries.
- The cluster index (`trigger.clusters.processor`) is not part of this model. Its clustering is replaced by arbitrary functions of the calls it has received. Its calls never fail. `remove` of a tag it does not know only forgets nothing; the real behaviour is unknown.
- `similarity_metric` (`trigger.metrics.match`) is not part of this model. It is an arbitrary function to `real`. The calculator carries it instead of importing it as a global, and the constructor receives it as the metric for the default calculator. Python evaluates the default `ScoringCalculator()` once and shares it; calculators are immutable values here, so that sharing is not observable.
- Floating point: scores and thresholds are `real`, so NaN and rounding are not modelled.
- `eval_cluster` and `eval_matches` (`trigger.test`) are not part of this model. They are arbitrary read-only functions of the store and the index history, and return reports with opaque entries. The model computes new report values instead of mutating dictionaries, so it does not capture that `del` (trigger/trigger_interface.py:200, 210) mutates the dictionary `eval_matches` returned, or that `results['matches_results'] = ...` (trigger/trigger_interface.py:212-213) adds the key to the very dictionary `eval_cluster` returned.
- `trigger.operations` is not part of this model. The payload of each command is taken from how `on_operation` reads it. The default field values of the payload classes are not modelled. An `Operation` whose `info` does not fit its `type` cannot arise in the tagged union.
- Duck typing: the identity pipeline accepts only Instance values, not arbitrary objects that happen to have `value` and `embedding` attributes.
- numpy arrays are compared by their contents only; dtype and shape are not modelled.
- Truthiness in `filter(None, ...)`: Instances and Scorings are always truthy, so only `None` is dropped.
- Aliasing: Instances are values, so a caller mutating an Instance it passed in is not modelled.
- Idempotence of the query path and "the threshold never changes" hold by construction. The queries are functions of the state, and the calculator is an immutable `const` field. There is no separate lemma for either.
- The pickle utilities, the demo driver and the JSON encoder (util/pickle/patch.py, main.py, trigger/util/json_encoder.py) are I/O and library plumbing.
