/**
 * The value object `Instance` and the two transformer pipelines that build one
 * from a raw value (interference/transformers/transformer_pipeline.py).
 */
module Transformers {
  import opened Errors

  /** A numpy vector, compared by its contents. */
  type Embedding = seq<real>

  /** The raw values the core receives (Python `Any`): a numpy array, an Instance, or anything else. */
  datatype Value =
    | NdArray(data: Embedding)
    | InstanceValue(instance: Instance)
    | OtherValue(token: int)

  /** A raw domain value paired with its embedding vector. */
  datatype Instance = Instance(value: Value, embedding: Embedding)

  /** The closed set of `TransformerPipeline` implementations. */
  datatype Transformer = NumpyToInstancePipeline | IdentityPipeline

  /** `NumpyToInstancePipeline.transform`: an array becomes `Instance(v, v)`; anything else fails its assert. */
  function NumpyToInstance(v: Value): (r: Result<Instance>)
    ensures r.Ok? <==> v.NdArray?
    ensures r.Ok? ==> r.value.value == v && r.value.embedding == v.data
    ensures r.Err? ==> r.error == AssertionError
  {
    if v.NdArray? then Ok(Instance(v, v.data)) else Err(AssertionError)
  }

  /** `IdentityPipeline.transform`: an Instance is returned as it is; anything else lacks `value`/`embedding`. */
  function IdentityTransform(v: Value): (r: Result<Instance>)
    ensures r.Ok? <==> v.InstanceValue?
    ensures r.Ok? ==> InstanceValue(r.value) == v
    ensures r.Err? ==> r.error == AssertionError
  {
    match v
    case InstanceValue(i) => Ok(i)
    case _ => Err(AssertionError)
  }

  /** `transform` dispatched on the pipeline variant. */
  function Transform(t: Transformer, v: Value): (r: Result<Instance>)
    ensures r.Err? ==> r.error == AssertionError
    ensures t.NumpyToInstancePipeline? ==> (r.Ok? <==> v.NdArray?) && (r.Ok? ==> r.value == Instance(v, v.data))
    ensures t.IdentityPipeline? ==> (r.Ok? <==> v.InstanceValue?) && (r.Ok? ==> r.value == v.instance)
  {
    match t
    case NumpyToInstancePipeline => NumpyToInstance(v)
    case IdentityPipeline => IdentityTransform(v)
  }

  /** Applying the identity pipeline to its own output changes nothing. */
  lemma IdentityIdempotent(v: Value)
    requires IdentityTransform(v).Ok?
    ensures IdentityTransform(InstanceValue(IdentityTransform(v).value)) == IdentityTransform(v)
  {
  }

  /** The identity pipeline accepts every Instance the numpy pipeline builds and returns it unchanged. */
  lemma IdentityAfterNumpy(v: Value)
    requires NumpyToInstance(v).Ok?
    ensures IdentityTransform(InstanceValue(NumpyToInstance(v).value)) == NumpyToInstance(v)
  {
  }
}
