/**
 * The cluster index the orchestrator notifies and queries
 * (`trigger.clusters.processor.Processor`). Its clustering is not modelled:
 * the answers of `predict` and `get_tags_in_cluster` are arbitrary functions,
 * fixed when the processor is built, of everything it has been told.
 */
module Clusters {
  import opened Transformers

  type ClusterId = int

  /** A call the orchestrator made on the processor. */
  datatype ProcessorCall =
    | Processed(tag: string, embedding: Embedding)
    | Updated(tag: string, embedding: Embedding)
    | Removed(tag: string)

  class Processor {
    /** Every mutating call received, oldest first. */
    var history: seq<ProcessorCall>
    /** The tags the index knows. */
    ghost var tags: set<string>
    const predictWith: (seq<ProcessorCall>, Embedding) -> ClusterId
    const clusterTagsWith: (seq<ProcessorCall>, ClusterId) -> seq<string>

    constructor (predictWith: (seq<ProcessorCall>, Embedding) -> ClusterId,
                 clusterTagsWith: (seq<ProcessorCall>, ClusterId) -> seq<string>)
      ensures history == [] && tags == {}
      ensures this.predictWith == predictWith && this.clusterTagsWith == clusterTagsWith
    {
      history := [];
      tags := {};
      this.predictWith := predictWith;
      this.clusterTagsWith := clusterTagsWith;
    }

    /** The cluster an embedding would join, without adding it. */
    function Predict(embedding: Embedding): ClusterId
      reads this
    {
      predictWith(history, embedding)
    }

    /** The tags currently in a cluster, in the index's own order (may name tags it no longer knows). */
    function GetTagsInCluster(cluster: ClusterId): seq<string>
      reads this
    {
      clusterTagsWith(history, cluster)
    }

    /** `process(tag, embedding)`: ingest a new tag. */
    method Process(tag: string, embedding: Embedding)
      modifies this
      ensures history == old(history) + [Processed(tag, embedding)]
      ensures tags == old(tags) + {tag}
    {
      history := history + [Processed(tag, embedding)];
      tags := tags + {tag};
    }

    /** `update(tag, embedding)`: replace the embedding of a tag. */
    method Update(tag: string, embedding: Embedding)
      modifies this
      ensures history == old(history) + [Updated(tag, embedding)]
      ensures tags == old(tags) + {tag}
    {
      history := history + [Updated(tag, embedding)];
      tags := tags + {tag};
    }

    /** `remove(tag)`: forget a tag. */
    method Remove(tag: string)
      modifies this
      ensures history == old(history) + [Removed(tag)]
      ensures tags == old(tags) - {tag}
    {
      history := history + [Removed(tag)];
      tags := tags - {tag};
    }
  }
}
