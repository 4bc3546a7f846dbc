/**
 * The orchestrator (trigger/trigger_interface.py): it owns the entity store
 * `instances_map` (tag -> Instance), mirrors every change of it into the
 * cluster index, and answers score and match queries by scoring a query
 * instance against the stored instances of the tags in its predicted cluster.
 */
module Trigger {
  import opened Errors
  import opened Seqs
  import opened Transformers
  import opened Scores
  import opened Clusters
  import opened Operations

  /** A `(tag, instance)` pair of `zip(tags, instances)`. */
  type Pair = (string, Instance)

  // ---------------------------------------------------------------------------
  // Reference functions over values

  /** The dictionary after `m[tag] = instance` for each pair, first to last. */
  function Assign(m: map<string, Instance>, pairs: seq<Pair>): map<string, Instance>
  {
    if pairs == [] then m
    else Assign(m, pairs[..|pairs| - 1])[pairs[|pairs| - 1].0 := pairs[|pairs| - 1].1]
  }

  /** The tags of a list of pairs. */
  function TagsOf(pairs: seq<Pair>): set<string>
  {
    if pairs == [] then {} else TagsOf(pairs[..|pairs| - 1]) + {pairs[|pairs| - 1].0}
  }

  /** The `processor.process` calls made for a list of pairs, in order. */
  function ProcessCalls(pairs: seq<Pair>): seq<ProcessorCall>
  {
    if pairs == [] then []
    else ProcessCalls(pairs[..|pairs| - 1]) + [Processed(pairs[|pairs| - 1].0, pairs[|pairs| - 1].1.embedding)]
  }

  /** The `processor.update` calls made for a list of pairs, in order. */
  function UpdateCalls(pairs: seq<Pair>): seq<ProcessorCall>
  {
    if pairs == [] then []
    else UpdateCalls(pairs[..|pairs| - 1]) + [Updated(pairs[|pairs| - 1].0, pairs[|pairs| - 1].1.embedding)]
  }

  /** The `processor.remove` calls made for a list of tags, in order. */
  function RemoveCalls(tags: seq<string>): seq<ProcessorCall>
  {
    if tags == [] then [] else RemoveCalls(tags[..|tags| - 1]) + [Removed(tags[|tags| - 1])]
  }

  function Elems(tags: seq<string>): set<string>
  {
    set t | t in tags
  }

  /** The tags of the pairs, in order. */
  function PairTags(pairs: seq<Pair>): (r: seq<string>)
    ensures |r| == |pairs|
    ensures forall j :: 0 <= j < |pairs| ==> r[j] == pairs[j].0
  {
    if pairs == [] then [] else [pairs[0].0] + PairTags(pairs[1..])
  }

  /** The tags of `zip(tags, instances)` are the tags `zip` keeps. */
  lemma ZipPairTags(tags: seq<string>, instances: seq<Instance>)
    ensures PairTags(Zip(tags, instances)) == tags[..Min(|tags|, |instances|)]
  {
  }

  /** Assigning pairs adds exactly their tags to the keys. */
  lemma {:induction false} AssignKeys(m: map<string, Instance>, pairs: seq<Pair>)
    ensures Assign(m, pairs).Keys == m.Keys + TagsOf(pairs)
  {
    if pairs != [] {
      AssignKeys(m, pairs[..|pairs| - 1]);
    }
  }

  /** Assigning pairs leaves every entry whose tag they do not mention as it was. */
  lemma {:induction false} AssignOthersUnchanged(m: map<string, Instance>, pairs: seq<Pair>, t: string)
    requires t !in TagsOf(pairs)
    ensures t in Assign(m, pairs) <==> t in m
    ensures t in m ==> Assign(m, pairs)[t] == m[t]
  {
    if pairs != [] {
      AssignOthersUnchanged(m, pairs[..|pairs| - 1], t);
    }
  }

  /** After assigning pairs, a tag holds the instance of the last pair that mentions it. */
  lemma {:induction false} AssignLastWins(m: map<string, Instance>, pairs: seq<Pair>, i: nat)
    requires i < |pairs|
    requires pairs[i].0 !in TagsOf(pairs[i + 1..])
    ensures pairs[i].0 in Assign(m, pairs) && Assign(m, pairs)[pairs[i].0] == pairs[i].1
    decreases |pairs|
  {
    var n := |pairs| - 1;
    if i < n {
      assert pairs[i + 1..] == pairs[..n][i + 1..] + [pairs[n]];
      assert TagsOf(pairs[i + 1..]) == TagsOf(pairs[..n][i + 1..]) + {pairs[n].0};
      AssignLastWins(m, pairs[..n], i);
    }
  }

  /** The tags among `tags` that the store holds, in their order (Python's filter over `.get`). */
  function KnownTags(m: map<string, Instance>, tags: seq<string>): (r: seq<string>)
    ensures forall t :: t in r <==> t in tags && t in m
    ensures IsSubsequence(r, tags)
    ensures |r| <= |tags|
  {
    if tags == [] then []
    else
      var rest := KnownTags(m, tags[1..]);
      if tags[0] in m then
        assert ([tags[0]] + rest)[1..] == rest;
        [tags[0]] + rest
      else
        rest
  }

  /**
   * The filter keeps every occurrence of a stored tag and nothing else; with
   * `IsSubsequence` above this fixes the result, repeated tags included.
   */
  lemma {:induction false} KnownTagsCounts(m: map<string, Instance>, tags: seq<string>)
    ensures forall t :: multiset(KnownTags(m, tags))[t] == if t in m then multiset(tags)[t] else 0
  {
    if tags != [] {
      KnownTagsCounts(m, tags[1..]);
      assert tags == [tags[0]] + tags[1..];
    }
  }

  /** When the store holds every tag, nothing is filtered out. */
  lemma {:induction false} KnownTagsAll(m: map<string, Instance>, tags: seq<string>)
    requires forall t :: t in tags ==> t in m
    ensures KnownTags(m, tags) == tags
  {
    if tags != [] {
      KnownTagsAll(m, tags[1..]);
    }
  }

  /** The tags of a list of scorings, in order. */
  function ScoredTags(scorings: seq<Scoring>): (r: seq<string>)
    ensures |r| == |scorings|
    ensures forall k :: 0 <= k < |r| ==> r[k] == scorings[k].scoredTag
  {
    if scorings == [] then [] else [scorings[0].scoredTag] + ScoredTags(scorings[1..])
  }

  /** The scorings with `is_match` set, in order. */
  function Matches(scorings: seq<Scoring>): (r: seq<Scoring>)
    ensures IsSubsequence(r, scorings)
    ensures forall s :: multiset(r)[s] == if s.isMatch then multiset(scorings)[s] else 0
    ensures forall s :: s in r ==> s.isMatch
  {
    if scorings == [] then []
    else
      var rest := Matches(scorings[1..]);
      assert scorings == [scorings[0]] + scorings[1..];
      if scorings[0].isMatch then
        assert ([scorings[0]] + rest)[1..] == rest;
        [scorings[0]] + rest
      else
        rest
  }

  /** The number of pairs `update` applies before it meets a tag the store does not hold. */
  function FirstMissing(m: map<string, Instance>, pairs: seq<Pair>): (k: nat)
    ensures k <= |pairs|
    ensures forall j :: 0 <= j < k ==> pairs[j].0 in m
    ensures k < |pairs| ==> pairs[k].0 !in m
  {
    if pairs == [] || pairs[0].0 !in m then 0 else 1 + FirstMissing(m, pairs[1..])
  }

  /** The number of tags `remove` deletes before `del` meets a tag no longer in the store. */
  function RemovableCount(m: map<string, Instance>, tags: seq<string>): (k: nat)
    ensures k <= |tags|
    ensures forall j :: 0 <= j < k ==> tags[j] in m && tags[j] !in tags[..j]
    ensures k < |tags| ==> tags[k] !in m || tags[k] in tags[..k]
  {
    if tags == [] || tags[0] !in m then 0
    else
      var rest := RemovableCount(m - {tags[0]}, tags[1..]);
      assert forall j :: 1 <= j <= |tags| ==> tags[..j] == [tags[0]] + tags[1..][..j - 1];
      1 + rest
  }

  /** Growing the removed prefix by one tag adds that tag and one `remove` call. */
  lemma RemovePrefixStep(tags: seq<string>, i: nat)
    requires i < |tags|
    ensures Elems(tags[..i + 1]) == Elems(tags[..i]) + {tags[i]}
    ensures RemoveCalls(tags[..i + 1]) == RemoveCalls(tags[..i]) + [Removed(tags[i])]
  {
    assert tags[..i + 1] == tags[..i] + [tags[i]];
    assert tags[..i + 1][..i] == tags[..i];
  }

  /** Before tag `i`, `remove` goes on exactly when that tag is still in the store. */
  lemma RemovableCountStep(m: map<string, Instance>, tags: seq<string>, i: nat)
    requires i < |tags| && i <= RemovableCount(m, tags)
    ensures i < RemovableCount(m, tags) <==> tags[i] in m - Elems(tags[..i])
  {
  }

  /** `remove` deletes the whole list exactly when every tag is in the store and none repeats. */
  lemma RemoveSucceedsIff(m: map<string, Instance>, tags: seq<string>)
    ensures RemovableCount(m, tags) == |tags| <==> (forall t :: t in tags ==> t in m) && NoDuplicates(tags)
  {
    var k := RemovableCount(m, tags);
    if k == |tags| {
      forall i, j | 0 <= i < j < |tags| ensures tags[i] != tags[j] {
        assert tags[i] in tags[..j];
      }
    } else {
      if tags[k] in tags[..k] {
        var i :| 0 <= i < k && tags[i] == tags[k];
        assert !NoDuplicates(tags);
      }
    }
  }

  /** `if not fetch_instance: del report["by_value"]`. */
  function DropByValue(report: Report, fetchInstance: bool): (r: Result<Report>)
    ensures fetchInstance ==> r == Ok(report)
    ensures !fetchInstance ==> (r.Err? <==> ByValueKey !in report)
    ensures r.Err? ==> r.error == KeyError(ByValueKey)
    ensures !fetchInstance && r.Ok? ==> ByValueKey !in r.value && r.value.Keys == report.Keys - {ByValueKey}
    ensures r.Ok? ==> forall k :: k in r.value ==> r.value[k] == report[k]
  {
    if fetchInstance then Ok(report)
    else if ByValueKey !in report then Err(KeyError(ByValueKey))
    else Ok(report - {ByValueKey})
  }

  // ---------------------------------------------------------------------------
  // The orchestrator

  class TriggerInterface {
    const processor: Processor
    const transformers: map<string, Transformer>
    const scoringCalculator: ScoringCalculator
    var instancesMap: map<string, Instance>

    /**
     * `scoringCalculator` is the optional third argument; when it is absent the
     * default `ScoringCalculator()` is used, built over the module's `metric`.
     */
    constructor (processor: Processor, transformers: map<string, Transformer>,
                 scoringCalculator: Option<ScoringCalculator>, metric: SimilarityMetric)
      ensures this.processor == processor && this.transformers == transformers
      ensures scoringCalculator.Some? ==> this.scoringCalculator == scoringCalculator.value
      ensures scoringCalculator.None? ==>
        && this.scoringCalculator.scoringOptions.scoreToBeMatch == 0.5
        && this.scoringCalculator.similarityMetric == metric
      ensures instancesMap == map[]
      ensures Consistent() <==> processor.tags == {}
    {
      this.processor := processor;
      this.transformers := transformers;
      this.scoringCalculator := match scoringCalculator
        case Some(c) => c
        case None => NewScoringCalculator(None, metric);
      instancesMap := map[];
    }

    /** The store and the cluster index know the same tags. */
    ghost predicate Consistent()
      reads this, processor
    {
      instancesMap.Keys == processor.tags
    }

    /** Neither the store nor the index differs from the given earlier state. */
    ghost predicate StoresUnchangedSince(instances: map<string, Instance>, tags: set<string>, history: seq<ProcessorCall>)
      reads this, processor
    {
      instancesMap == instances && processor.tags == tags && processor.history == history
    }

    /** What the external evaluators are passed when they receive `self`. */
    function Snapshot(): TriggerState
      reads this, processor
    {
      TriggerState(instancesMap, processor.history)
    }

    function FindTransformerForKey(key: string): (r: Option<Transformer>)
      ensures r.Some? <==> key in transformers
      ensures r.Some? ==> r.value == transformers[key]
    {
      if key in transformers then Some(transformers[key]) else None
    }

    /** A transformer key that `create_instance_or_none` can turn into an instance: none, or a registered one. */
    predicate KeyResolves(transformerKey: Option<string>)
    {
      transformerKey.None? || transformerKey.value in transformers
    }

    function CreateInstanceOrNone(transformerKey: Option<string>, value: Value): (r: Result<Option<Instance>>)
      ensures r == Ok(None) <==> !KeyResolves(transformerKey)
      ensures r.Err? ==> r.error == AssertionError
      ensures transformerKey.None? ==>
        (r.Ok? <==> NumpyToInstance(value).Ok?) && (r.Ok? ==> r.value == Some(NumpyToInstance(value).value))
      ensures transformerKey.Some? && transformerKey.value in transformers ==>
        var t := Transform(transformers[transformerKey.value], value);
        (r.Ok? <==> t.Ok?) && (r.Ok? ==> r.value == Some(t.value))
    {
      match transformerKey
      case None =>
        if value.NdArray? then Ok(Some(Instance(value, value.data))) else Err(AssertionError)
      case Some(key) =>
        match FindTransformerForKey(key)
        case None => Ok(None)
        case Some(transformer) =>
          match Transform(transformer, value)
          case Err(e) => Err(e)
          case Ok(instance) => Ok(Some(instance))
    }

    /** The list comprehension of `create_instances_filter_none` once every item has converted. */
    function Conversions(keys: seq<Option<string>>, values: seq<Value>): seq<Option<Instance>>
      requires forall i :: 0 <= i < Min(|keys|, |values|) ==> CreateInstanceOrNone(keys[i], values[i]).Ok?
    {
      seq(Min(|keys|, |values|), i requires 0 <= i < Min(|keys|, |values|) => CreateInstanceOrNone(keys[i], values[i]).value)
    }

    /** Converts `zip(keys, values)`, dropping the items whose key is unknown; any failed conversion raises. */
    function CreateInstancesFilterNone(keys: seq<Option<string>>, values: seq<Value>): (r: Result<seq<Instance>>)
      ensures r.Ok? <==> forall i :: 0 <= i < Min(|keys|, |values|) ==> CreateInstanceOrNone(keys[i], values[i]).Ok?
      ensures r.Err? ==> r.error == AssertionError
      ensures r.Ok? ==> |r.value| <= Min(|keys|, |values|)
      ensures r.Ok? ==>
        (|r.value| == Min(|keys|, |values|) <==> forall i :: 0 <= i < Min(|keys|, |values|) ==> KeyResolves(keys[i]))
      ensures r.Ok? ==> forall j :: 0 <= j < |r.value| ==>
        exists i :: 0 <= i < Min(|keys|, |values|) && CreateInstanceOrNone(keys[i], values[i]) == Ok(Some(r.value[j]))
      decreases |keys|
    {
      if keys == [] || values == [] then Ok([])
      else
        match CreateInstanceOrNone(keys[0], values[0])
        case Err(e) => Err(e)
        case Ok(head) =>
          match CreateInstancesFilterNone(keys[1..], values[1..])
          case Err(e) => Err(e)
          case Ok(tail) => Ok((if head.Some? then [head.value] else []) + tail)
    }

    /**
     * The conversion is the list comprehension followed by `filter(None, ...)`:
     * exactly the instances of the items whose key resolves, in input order.
     */
    lemma {:induction false} CreateInstancesFilterNoneIsFilter(keys: seq<Option<string>>, values: seq<Value>)
      requires CreateInstancesFilterNone(keys, values).Ok?
      ensures CreateInstancesFilterNone(keys, values).value == Somes(Conversions(keys, values))
      decreases |keys|
    {
      if keys != [] && values != [] {
        CreateInstancesFilterNoneIsFilter(keys[1..], values[1..]);
        var head := CreateInstanceOrNone(keys[0], values[0]).value;
        assert Conversions(keys, values) == [head] + Conversions(keys[1..], values[1..]);
        assert ([head] + Conversions(keys[1..], values[1..]))[1..] == Conversions(keys[1..], values[1..]);
      }
    }

    /**
     * `add` and `update` zip the tags against the list of instances AFTER the
     * items with unknown keys were dropped from it, so a dropped item shifts
     * every later instance onto the previous tag: here tag "a" receives the
     * instance built from the value given for "b", and "b" is not touched.
     */
    lemma MisalignedPairsExample(unknown: string, d: Embedding)
      requires unknown !in transformers
      ensures CreateInstancesFilterNone([Some(unknown), None], [OtherValue(0), NdArray(d)]) == Ok([Instance(NdArray(d), d)])
      ensures Zip(["a", "b"], [Instance(NdArray(d), d)]) == [("a", Instance(NdArray(d), d))]
      ensures AlignedPairs(["a", "b"], [Some(unknown), None], [OtherValue(0), NdArray(d)]) == Ok([("b", Instance(NdArray(d), d))])
    {
      var keys, values := [Some(unknown), None], [OtherValue(0), NdArray(d)];
      assert keys[1..] == [None] && values[1..] == [NdArray(d)];
      assert keys[1..][1..] == [] && values[1..][1..] == [];
      assert ["a", "b"][1..] == ["b"] && ["b"][1..] == [];
      var instance := Instance(NdArray(d), d);
      assert CreateInstanceOrNone(None, NdArray(d)) == Ok(Some(instance));
      assert CreateInstanceOrNone(Some(unknown), OtherValue(0)) == Ok(None);
      SingletonCreate(None, NdArray(d));
      assert [] + [instance] == [instance];
      assert AlignedPairs([], [], []) == Ok([]);
      assert [("b", instance)] + [] == [("b", instance)];
      assert AlignedPairs(["b"], [None], [NdArray(d)]) == Ok([("b", instance)]);
      assert [] + [("b", instance)] == [("b", instance)];
      assert Zip(["a", "b"][1..], [Instance(NdArray(d), d)][1..]) == [];
    }

    /** The pairing of tags and instances that `add` and `update` evidently intend: each tag with its own item. */
    function AlignedPairs(tags: seq<string>, keys: seq<Option<string>>, values: seq<Value>): (r: Result<seq<Pair>>)
      ensures r.Err? ==> r.error == AssertionError
      ensures r.Ok? ==> |r.value| <= |tags|
      ensures r.Ok? ==> forall j :: 0 <= j < |r.value| ==>
        exists i :: 0 <= i < |tags| && i < |keys| && i < |values| &&
          r.value[j].0 == tags[i] && CreateInstanceOrNone(keys[i], values[i]) == Ok(Some(r.value[j].1))
      decreases |tags|
    {
      if tags == [] || keys == [] || values == [] then Ok([])
      else
        match CreateInstanceOrNone(keys[0], values[0])
        case Err(e) => Err(e)
        case Ok(head) =>
          match AlignedPairs(tags[1..], keys[1..], values[1..])
          case Err(e) => Err(e)
          case Ok(tail) => Ok((if head.Some? then [(tags[0], head.value)] else []) + tail)
    }

    /** When no item is dropped, the source's pairing is the intended one. */
    lemma {:induction false} AlignedAgreesWhenNothingDropped(tags: seq<string>, keys: seq<Option<string>>, values: seq<Value>)
      requires |tags| == |keys| == |values|
      requires forall i :: 0 <= i < |keys| ==> KeyResolves(keys[i])
      requires CreateInstancesFilterNone(keys, values).Ok?
      ensures AlignedPairs(tags, keys, values) == Ok(Zip(tags, CreateInstancesFilterNone(keys, values).value))
      decreases |tags|
    {
      if tags != [] {
        assert forall i :: 0 <= i < |keys[1..]| ==> KeyResolves(keys[1..][i]) by {
          forall i | 0 <= i < |keys[1..]| ensures KeyResolves(keys[1..][i]) {
            assert keys[1..][i] == keys[i + 1];
          }
        }
        AlignedAgreesWhenNothingDropped(tags[1..], keys[1..], values[1..]);
        assert KeyResolves(keys[0]);
      }
    }

    /** `on_operation` passes one-item lists, on which the two pairings coincide. */
    lemma AlignedAgreesOnSingletons(tag: string, transformerKey: Option<string>, value: Value)
      requires CreateInstancesFilterNone([transformerKey], [value]).Ok?
      ensures AlignedPairs([tag], [transformerKey], [value]) == Ok(Zip([tag], CreateInstancesFilterNone([transformerKey], [value]).value))
    {
      SingletonCreate(transformerKey, value);
      assert [tag][1..] == [] && [transformerKey][1..] == [] && [value][1..] == [];
      EmptyPairs([tag]);
      if instance: Instance :| CreateInstanceOrNone(transformerKey, value) == Ok(Some(instance)) {
        SingletonPair(map[], tag, instance);
      }
    }

    method AddInstance(tag: string, instance: Instance)
      modifies this, processor
      ensures instancesMap == old(instancesMap)[tag := instance]
      ensures processor.tags == old(processor.tags) + {tag}
      ensures processor.history == old(processor.history) + [Processed(tag, instance.embedding)]
      ensures old(Consistent()) ==> Consistent()
    {
      processor.Process(tag, instance.embedding);
      instancesMap := instancesMap[tag := instance];
    }

    /** Adds `zip(tags, instances)`: the list is shorter than the input when keys are unknown. */
    method Add(tags: seq<string>, keys: seq<Option<string>>, values: seq<Value>) returns (r: Result<()>)
      modifies this, processor
      ensures var created := CreateInstancesFilterNone(keys, values);
        if created.Err? then
          r == Err(created.error) && unchanged(this, processor)
        else
          var pairs := Zip(tags, created.value);
          && r == Ok(())
          && instancesMap == Assign(old(instancesMap), pairs)
          && processor.tags == old(processor.tags) + TagsOf(pairs)
          && processor.history == old(processor.history) + ProcessCalls(pairs)
      ensures old(Consistent()) ==> Consistent()
    {
      var created := CreateInstancesFilterNone(keys, values);
      if created.Err? {
        return Err(created.error);
      }
      AddPairs(Zip(tags, created.value));
      r := Ok(());
    }

    /** The loop of `add` over the zipped pairs. */
    method AddPairs(pairs: seq<Pair>)
      modifies this, processor
      ensures instancesMap == Assign(old(instancesMap), pairs)
      ensures processor.tags == old(processor.tags) + TagsOf(pairs)
      ensures processor.history == old(processor.history) + ProcessCalls(pairs)
      ensures old(Consistent()) ==> Consistent()
    {
      var i := 0;
      while i < |pairs|
        invariant 0 <= i <= |pairs|
        invariant instancesMap == Assign(old(instancesMap), pairs[..i])
        invariant processor.tags == old(processor.tags) + TagsOf(pairs[..i])
        invariant processor.history == old(processor.history) + ProcessCalls(pairs[..i])
      {
        assert pairs[..i + 1][..i] == pairs[..i];
        AddInstance(pairs[i].0, pairs[i].1);
        i := i + 1;
      }
      assert pairs[..|pairs|] == pairs;
      AssignKeys(old(instancesMap), pairs);
    }

    /** Replaces the instance of a tag the store holds; an absent tag changes nothing. */
    method UpdateInstance(tag: string, instance: Instance) returns (updated: bool)
      modifies this, processor
      ensures updated == (tag in old(instancesMap))
      ensures !updated ==> unchanged(this, processor)
      ensures updated ==>
        && instancesMap == old(instancesMap)[tag := instance]
        && processor.tags == old(processor.tags) + {tag}
        && processor.history == old(processor.history) + [Updated(tag, instance.embedding)]
      ensures old(Consistent()) ==> Consistent()
    {
      if tag !in instancesMap {
        return false;
      }
      processor.Update(tag, instance.embedding);
      instancesMap := instancesMap[tag := instance];
      updated := true;
    }

    /** Updates `zip(tags, instances)` in order and stops with false at the first absent tag. */
    method Update(tags: seq<string>, keys: seq<Option<string>>, values: seq<Value>) returns (r: Result<bool>)
      modifies this, processor
      ensures var created := CreateInstancesFilterNone(keys, values);
        if created.Err? then
          r == Err(created.error) && unchanged(this, processor)
        else
          var pairs := Zip(tags, created.value);
          var k := FirstMissing(old(instancesMap), pairs);
          && r == Ok(k == |pairs|)
          && instancesMap == Assign(old(instancesMap), pairs[..k])
          && processor.tags == old(processor.tags) + TagsOf(pairs[..k])
          && processor.history == old(processor.history) + UpdateCalls(pairs[..k])
      ensures instancesMap.Keys == old(instancesMap).Keys
      ensures old(Consistent()) ==> Consistent()
    {
      var created := CreateInstancesFilterNone(keys, values);
      if created.Err? {
        return Err(created.error);
      }
      var ok := UpdatePairs(Zip(tags, created.value));
      r := Ok(ok);
    }

    /** The loop of `update` over the zipped pairs. */
    method UpdatePairs(pairs: seq<Pair>) returns (ok: bool)
      modifies this, processor
      ensures var k := FirstMissing(old(instancesMap), pairs);
        && ok == (k == |pairs|)
        && instancesMap == Assign(old(instancesMap), pairs[..k])
        && processor.tags == old(processor.tags) + TagsOf(pairs[..k])
        && processor.history == old(processor.history) + UpdateCalls(pairs[..k])
      ensures instancesMap.Keys == old(instancesMap).Keys
      ensures old(Consistent()) ==> Consistent()
    {
      ghost var m0, tags0, history0 := instancesMap, processor.tags, processor.history;
      var i := 0;
      while i < |pairs|
        invariant 0 <= i <= FirstMissing(m0, pairs)
        invariant TagsOf(pairs[..i]) <= m0.Keys
        invariant instancesMap == Assign(m0, pairs[..i])
        invariant instancesMap.Keys == m0.Keys
        invariant processor.tags == tags0 + TagsOf(pairs[..i])
        invariant processor.history == history0 + UpdateCalls(pairs[..i])
      {
        assert pairs[..i + 1][..i] == pairs[..i];
        var updated := UpdateInstance(pairs[i].0, pairs[i].1);
        if !updated {
          assert FirstMissing(m0, pairs) == i;
          return false;
        }
        assert pairs[i].0 in m0;
        i := i + 1;
      }
      assert pairs[..|pairs|] == pairs;
      ok := true;
    }

    /** Removes each tag from the index and then `del`s it from the store; `del` of an absent tag raises. */
    method Remove(tags: seq<string>) returns (r: Result<()>)
      modifies this, processor
      ensures var k := RemovableCount(old(instancesMap), tags);
        && r == (if k == |tags| then Ok(()) else Err(KeyError(tags[k])))
        && instancesMap == old(instancesMap) - Elems(tags[..k])
        && processor.tags == old(processor.tags) - Elems(tags[..Min(k + 1, |tags|)])
        && processor.history == old(processor.history) + RemoveCalls(tags[..Min(k + 1, |tags|)])
      ensures old(Consistent()) ==> Consistent()
    {
      ghost var k := RemovableCount(old(instancesMap), tags);
      var i := 0;
      while i < |tags|
        invariant 0 <= i <= k
        invariant instancesMap == old(instancesMap) - Elems(tags[..i])
        invariant processor.tags == old(processor.tags) - Elems(tags[..i])
        invariant processor.history == old(processor.history) + RemoveCalls(tags[..i])
      {
        RemovePrefixStep(tags, i);
        RemovableCountStep(old(instancesMap), tags, i);
        processor.Remove(tags[i]);
        if tags[i] !in instancesMap {
          assert i == k;
          return Err(KeyError(tags[i]));
        }
        instancesMap := instancesMap - {tags[i]};
        i := i + 1;
      }
      assert tags[..|tags|] == tags;
      r := Ok(());
    }

    /** Looks up each tag, skipping the ones the store does not hold. */
    function GetInstancesByTag(tags: seq<string>): (r: seq<Instance>)
      reads this
      ensures |r| == |KnownTags(instancesMap, tags)|
      ensures forall k :: 0 <= k < |r| ==> r[k] == instancesMap[KnownTags(instancesMap, tags)[k]]
    {
      if tags == [] then []
      else
        var rest := GetInstancesByTag(tags[1..]);
        ghost var known := KnownTags(instancesMap, tags[1..]);
        assert KnownTags(instancesMap, tags) == if tags[0] in instancesMap then [tags[0]] + known else known;
        if tags[0] in instancesMap then [instancesMap[tags[0]]] + rest else rest
    }

    function CalculateScoringBetweenInstances(instance1: Instance, tag2: string, instance2: Instance): (s: Scoring)
      ensures s.scoredTag == tag2 && s.scoredInstance == instance2
      ensures s.similarityScore == scoringCalculator.similarityMetric(instance1.embedding, instance2.embedding)
      ensures Calibrated(s, scoringCalculator.scoringOptions.scoreToBeMatch)
    {
      Score(scoringCalculator, instance1, tag2, instance2)
    }

    /** Scores the query against the stored instance of `tag`, or nothing when the store lacks the tag. */
    function CalculateScoringBetweenInstanceAndTagOrNone(instance: Instance, tag: string): (r: Option<Scoring>)
      reads this
      ensures r.Some? <==> tag in instancesMap
      ensures r.Some? ==> r.value == Score(scoringCalculator, instance, tag, instancesMap[tag])
    {
      var instances := GetInstancesByTag([tag]);
      assert KnownTags(instancesMap, [tag]) == if tag in instancesMap then [tag] else [];
      if |instances| == 0 then None
      else Some(CalculateScoringBetweenInstances(instance, tag, instances[0]))
    }

    /** The comprehension of `get_scorings_for_instance` over the candidate tags, with misses dropped. */
    function ScoringsForTags(instance: Instance, tags: seq<string>): (r: seq<Scoring>)
      reads this
      ensures ScoredTags(r) == KnownTags(instancesMap, tags)
      ensures forall s :: s in r ==>
        s.scoredTag in instancesMap && s == Score(scoringCalculator, instance, s.scoredTag, instancesMap[s.scoredTag])
    {
      if tags == [] then []
      else
        var head := CalculateScoringBetweenInstanceAndTagOrNone(instance, tags[0]);
        (if head.Some? then [head.value] else []) + ScoringsForTags(instance, tags[1..])
    }

    /** The tags the index lists for the cluster the query would join. */
    function CandidateTags(instance: Instance): seq<string>
      reads this, processor
    {
      processor.GetTagsInCluster(processor.Predict(instance.embedding))
    }

    function GetScoringsForInstance(instance: Instance): (r: seq<Scoring>)
      reads this, processor
      ensures instancesMap == map[] ==> r == []
      ensures instancesMap != map[] ==> ScoredTags(r) == KnownTags(instancesMap, CandidateTags(instance))
      ensures forall k :: 0 <= k < |r| ==> r[k].scoredTag in CandidateTags(instance)
      ensures forall s :: s in r ==>
        && s.scoredTag in instancesMap
        && s.scoredInstance == instancesMap[s.scoredTag]
        && s.similarityScore == scoringCalculator.similarityMetric(instance.embedding, s.scoredInstance.embedding)
        && Calibrated(s, scoringCalculator.scoringOptions.scoreToBeMatch)
    {
      if |instancesMap| == 0 then []
      else
        var r := ScoringsForTags(instance, CandidateTags(instance));
        assert forall k :: 0 <= k < |r| ==> r[k].scoredTag == ScoredTags(r)[k];
        r
    }

    function GetMatchesForInstance(instance: Instance): (r: seq<Scoring>)
      reads this, processor
      ensures IsSubsequence(r, GetScoringsForInstance(instance))
      ensures forall s :: multiset(r)[s] == if s.isMatch then multiset(GetScoringsForInstance(instance))[s] else 0
      ensures forall s :: s in r ==> s.isMatch && s.similarityScore >= scoringCalculator.scoringOptions.scoreToBeMatch
    {
      Matches(GetScoringsForInstance(instance))
    }

    function GetScoringsFor(keys: seq<Option<string>>, values: seq<Value>): (r: Result<seq<seq<Scoring>>>)
      reads this, processor
      ensures r.Err? <==> CreateInstancesFilterNone(keys, values).Err?
      ensures r.Err? ==> r.error == AssertionError
      ensures r.Ok? ==> |r.value| == |CreateInstancesFilterNone(keys, values).value| <= Min(|keys|, |values|)
      ensures r.Ok? ==> forall i :: 0 <= i < |r.value| ==>
        r.value[i] == GetScoringsForInstance(CreateInstancesFilterNone(keys, values).value[i])
    {
      match CreateInstancesFilterNone(keys, values)
      case Err(e) => Err(e)
      case Ok(instances) =>
        Ok(seq(|instances|, i requires 0 <= i < |instances| reads this, processor => GetScoringsForInstance(instances[i])))
    }

    function GetMatchesFor(keys: seq<Option<string>>, values: seq<Value>): (r: Result<seq<seq<Scoring>>>)
      reads this, processor
      ensures r.Err? <==> CreateInstancesFilterNone(keys, values).Err?
      ensures r.Err? ==> r.error == AssertionError
      ensures r.Ok? ==> |r.value| == |CreateInstancesFilterNone(keys, values).value| <= Min(|keys|, |values|)
      ensures r.Ok? ==> forall i :: 0 <= i < |r.value| ==>
        r.value[i] == GetMatchesForInstance(CreateInstancesFilterNone(keys, values).value[i])
    {
      match CreateInstancesFilterNone(keys, values)
      case Err(e) => Err(e)
      case Ok(instances) =>
        Ok(seq(|instances|, i requires 0 <= i < |instances| reads this, processor => GetMatchesForInstance(instances[i])))
    }

    /** The comprehension of `calculate_scorings_between_values_and_tags` over `zip(tags, instances)`. */
    function ScoringsForPairs(pairs: seq<Pair>): (r: seq<Scoring>)
      reads this
      ensures |r| <= |pairs|
      ensures (forall j :: 0 <= j < |pairs| ==> pairs[j].0 in instancesMap) ==> |r| == |pairs|
      ensures forall s :: s in r ==> s.scoredTag in instancesMap && s.scoredInstance == instancesMap[s.scoredTag]
      ensures forall s :: s in r ==>
        exists j :: (0 <= j < |pairs| && pairs[j].0 == s.scoredTag &&
          s == Score(scoringCalculator, pairs[j].1, pairs[j].0, instancesMap[pairs[j].0]))
    {
      if pairs == [] then []
      else
        var head := CalculateScoringBetweenInstanceAndTagOrNone(pairs[0].1, pairs[0].0);
        (if head.Some? then [head.value] else []) + ScoringsForPairs(pairs[1..])
    }

    /** The same comprehension before `filter(None, ...)`: one optional scoring per pair. */
    function PairScorings(pairs: seq<Pair>): seq<Option<Scoring>>
      reads this
    {
      seq(|pairs|, j requires 0 <= j < |pairs| reads this => CalculateScoringBetweenInstanceAndTagOrNone(pairs[j].1, pairs[j].0))
    }

    /** The scorings are exactly those of the pairs whose tag is stored, in the pairs' order. */
    lemma {:induction false} ScoringsForPairsIsFilter(pairs: seq<Pair>)
      ensures ScoringsForPairs(pairs) == Somes(PairScorings(pairs))
    {
      if pairs != [] {
        ScoringsForPairsIsFilter(pairs[1..]);
        var head := CalculateScoringBetweenInstanceAndTagOrNone(pairs[0].1, pairs[0].0);
        assert PairScorings(pairs) == [head] + PairScorings(pairs[1..]);
        assert ([head] + PairScorings(pairs[1..]))[1..] == PairScorings(pairs[1..]);
      }
    }

    /** The scored tags are the pairs' tags that the store holds, in the pairs' order. */
    lemma {:induction false} ScoringsForPairsTags(pairs: seq<Pair>)
      ensures ScoredTags(ScoringsForPairs(pairs)) == KnownTags(instancesMap, PairTags(pairs))
    {
      if pairs != [] {
        ScoringsForPairsTags(pairs[1..]);
        var tags := PairTags(pairs);
        assert tags[1..] == PairTags(pairs[1..]);
        var known := KnownTags(instancesMap, tags[1..]);
        assert KnownTags(instancesMap, tags) == if tags[0] in instancesMap then [tags[0]] + known else known;
        var head := CalculateScoringBetweenInstanceAndTagOrNone(pairs[0].1, pairs[0].0);
        var rest := ScoringsForPairs(pairs[1..]);
        assert ScoringsForPairs(pairs) == (if head.Some? then [head.value] else []) + rest;
        if head.Some? {
          assert ScoredTags([head.value] + rest) == [head.value.scoredTag] + ScoredTags(rest);
        }
      }
    }

    function CalculateScoringsBetweenValuesAndTags(keys: seq<Option<string>>, values: seq<Value>, tags: seq<string>)
      : (r: Result<seq<Scoring>>)
      reads this
      ensures r.Err? <==> CreateInstancesFilterNone(keys, values).Err?
      ensures r.Err? ==> r.error == AssertionError
      ensures r.Ok? ==> |r.value| <= Min(|tags|, |CreateInstancesFilterNone(keys, values).value|)
      ensures r.Ok? ==> forall s :: s in r.value ==>
        s.scoredTag in instancesMap && s.scoredInstance == instancesMap[s.scoredTag]
    {
      match CreateInstancesFilterNone(keys, values)
      case Err(e) => Err(e)
      case Ok(instances) => Ok(ScoringsForPairs(Zip(tags, instances)))
    }

    /**
     * Over `zip(tags, instances)`: the scorings are those of the positions whose
     * tag is stored, in order, each scoring the instance at that position; the
     * scored tags are the stored ones among the tags that `zip` keeps.
     */
    lemma CalculateScoringsBetweenValuesAndTagsIsFilter(keys: seq<Option<string>>, values: seq<Value>, tags: seq<string>)
      requires CreateInstancesFilterNone(keys, values).Ok?
      ensures var instances := CreateInstancesFilterNone(keys, values).value;
        var n := Min(|tags|, |instances|);
        && CalculateScoringsBetweenValuesAndTags(keys, values, tags).value
           == Somes(seq(n, j requires 0 <= j < n reads this => CalculateScoringBetweenInstanceAndTagOrNone(instances[j], tags[j])))
        && ScoredTags(CalculateScoringsBetweenValuesAndTags(keys, values, tags).value) == KnownTags(instancesMap, tags[..n])
    {
      var instances := CreateInstancesFilterNone(keys, values).value;
      var pairs := Zip(tags, instances);
      ScoringsForPairsIsFilter(pairs);
      ScoringsForPairsTags(pairs);
      ZipPairTags(tags, instances);
      ZipPairScorings(tags, instances);
    }

    /** Over `zip(tags, instances)`, pair `j` scores instance `j` against tag `j`. */
    lemma ZipPairScorings(tags: seq<string>, instances: seq<Instance>)
      ensures var n := Min(|tags|, |instances|);
        PairScorings(Zip(tags, instances))
        == seq(n, j requires 0 <= j < n reads this => CalculateScoringBetweenInstanceAndTagOrNone(instances[j], tags[j]))
    {
      var pairs := Zip(tags, instances);
      forall j | 0 <= j < |pairs|
        ensures PairScorings(pairs)[j] == CalculateScoringBetweenInstanceAndTagOrNone(instances[j], tags[j])
      {
        assert pairs[j] == (tags[j], instances[j]);
      }
    }

    /** `on_operation`: dispatches one command of the protocol. */
    method OnOperation(operation: Operation, evaluators: Evaluators) returns (r: Result<Outcome>)
      modifies this, processor
      ensures operation.Add? ==>
        match CreateInstanceOrNone(operation.transformerKey, operation.value)
        case Err(e) => r == Err(e) && StoresUnchangedSince(old(instancesMap), old(processor.tags), old(processor.history))
        case Ok(None) => r == Ok(NoResult) && StoresUnchangedSince(old(instancesMap), old(processor.tags), old(processor.history))
        case Ok(Some(instance)) =>
          && r == Ok(NoResult)
          && instancesMap == old(instancesMap)[operation.tag := instance]
          && processor.tags == old(processor.tags) + {operation.tag}
          && processor.history == old(processor.history) + [Processed(operation.tag, instance.embedding)]
      ensures operation.Remove? ==>
        && processor.tags == old(processor.tags) - {operation.tag}
        && processor.history == old(processor.history) + [Removed(operation.tag)]
        && if operation.tag in old(instancesMap) then
             r == Ok(NoResult) && instancesMap == old(instancesMap) - {operation.tag}
           else
             r == Err(KeyError(operation.tag)) && instancesMap == old(instancesMap)
      ensures operation.Update? ==>
        match CreateInstanceOrNone(operation.transformerKey, operation.value)
        case Err(e) => r == Err(e) && StoresUnchangedSince(old(instancesMap), old(processor.tags), old(processor.history))
        case Ok(None) => r == Ok(NoResult) && StoresUnchangedSince(old(instancesMap), old(processor.tags), old(processor.history))
        case Ok(Some(instance)) =>
          && r == Ok(NoResult)
          && if operation.tag in old(instancesMap) then
               && instancesMap == old(instancesMap)[operation.tag := instance]
               && processor.tags == old(processor.tags) + {operation.tag}
               && processor.history == old(processor.history) + [Updated(operation.tag, instance.embedding)]
             else
               StoresUnchangedSince(old(instancesMap), old(processor.tags), old(processor.history))
      ensures operation.CalculateScores? ==>
        && unchanged(this, processor)
        && r == match CreateInstanceOrNone(operation.transformerKey, operation.value)
                case Err(e) => Err(e)
                case Ok(None) => Err(IndexError)
                case Ok(Some(instance)) => Ok(ScoringList(GetScoringsForInstance(instance)))
      ensures operation.CalculateMatches? ==>
        && unchanged(this, processor)
        && r == match CreateInstanceOrNone(operation.transformerKey, operation.value)
                case Err(e) => Err(e)
                case Ok(None) => Err(IndexError)
                case Ok(Some(instance)) => Ok(ScoringList(GetMatchesForInstance(instance)))
      ensures (operation.CalculateScores? || operation.CalculateMatches?) ==>
        (r == Err(IndexError) <==> !KeyResolves(operation.transformerKey))
      ensures operation.EvaluateClusters? ==>
        unchanged(this, processor) && r == Ok(Evaluation(evaluators.evalCluster(Snapshot())))
      ensures operation.EvaluateMatches? ==>
        && unchanged(this, processor)
        && r == match DropByValue(evaluators.evalMatches(Snapshot(), operation.requests), operation.fetchInstance)
                case Err(e) => Err(e)
                case Ok(report) => Ok(Evaluation(report))
      ensures operation.EvaluateMatches? && !operation.fetchInstance && r.Ok? ==> ByValueKey !in r.value.report
      ensures operation.EvaluateClustersAndMatches? ==>
        && unchanged(this, processor)
        && r == match DropByValue(evaluators.evalMatches(Snapshot(), operation.requests), operation.fetchInstance)
                case Err(e) => Err(e)
                case Ok(report) =>
                  Ok(Evaluation(evaluators.evalCluster(Snapshot())[MatchesResultsKey := Nested(report)]))
      ensures old(Consistent()) ==> Consistent()
    {
      if operation.Add? {
        SingletonCreate(operation.transformerKey, operation.value);
        EmptyPairs([operation.tag]);
        if created: Instance :| CreateInstanceOrNone(operation.transformerKey, operation.value) == Ok(Some(created)) {
          SingletonPair(instancesMap, operation.tag, created);
        }
        var added := Add([operation.tag], [operation.transformerKey], [operation.value]);
        r := if added.Err? then Err(added.error) else Ok(NoResult);
      } else if operation.Remove? {
        assert RemovableCount(instancesMap, [operation.tag]) == if operation.tag in instancesMap then 1 else 0;
        assert [operation.tag][..0] == [] && [operation.tag][..1] == [operation.tag];
        assert Elems([operation.tag]) == {operation.tag};
        var removed := Remove([operation.tag]);
        r := if removed.Err? then Err(removed.error) else Ok(NoResult);
      } else if operation.Update? {
        SingletonCreate(operation.transformerKey, operation.value);
        EmptyPairs([operation.tag]);
        if created: Instance :| CreateInstanceOrNone(operation.transformerKey, operation.value) == Ok(Some(created)) {
          SingletonPair(instancesMap, operation.tag, created);
        }
        var updated := Update([operation.tag], [operation.transformerKey], [operation.value]);
        r := if updated.Err? then Err(updated.error) else Ok(NoResult);
      } else if operation.CalculateScores? {
        SingletonCreate(operation.transformerKey, operation.value);
        var scorings := GetScoringsFor([operation.transformerKey], [operation.value]);
        r := if scorings.Err? then Err(scorings.error)
             else if |scorings.value| == 0 then Err(IndexError)
             else Ok(ScoringList(scorings.value[0]));
      } else if operation.CalculateMatches? {
        SingletonCreate(operation.transformerKey, operation.value);
        var matches := GetMatchesFor([operation.transformerKey], [operation.value]);
        r := if matches.Err? then Err(matches.error)
             else if |matches.value| == 0 then Err(IndexError)
             else Ok(ScoringList(matches.value[0]));
      } else if operation.EvaluateClusters? {
        r := Ok(Evaluation(evaluators.evalCluster(Snapshot())));
      } else if operation.EvaluateMatches? {
        var matches := DropByValue(evaluators.evalMatches(Snapshot(), operation.requests), operation.fetchInstance);
        r := if matches.Err? then Err(matches.error) else Ok(Evaluation(matches.value));
      } else {
        var clusters := evaluators.evalCluster(Snapshot());
        var matches := DropByValue(evaluators.evalMatches(Snapshot(), operation.requests), operation.fetchInstance);
        r := if matches.Err? then Err(matches.error)
             else Ok(Evaluation(clusters[MatchesResultsKey := Nested(matches.value)]));
      }
    }

    /** How the one-item lists of `on_operation` go through `create_instances_filter_none`. */
    lemma SingletonCreate(transformerKey: Option<string>, value: Value)
      ensures CreateInstancesFilterNone([transformerKey], [value]) ==
        match CreateInstanceOrNone(transformerKey, value)
        case Err(e) => Err(e)
        case Ok(None) => Ok([])
        case Ok(Some(instance)) => Ok([instance])
    {
      assert [transformerKey][1..] == [] && [value][1..] == [];
      assert CreateInstancesFilterNone([], []) == Ok([]);
      match CreateInstanceOrNone(transformerKey, value)
      case Err(e) =>
      case Ok(None) =>
      case Ok(Some(instance)) =>
        assert [instance] + [] == [instance];
    }
  }

  /** How a one-item list of tags goes through zipping and assignment. */
  lemma SingletonPair(m: map<string, Instance>, tag: string, instance: Instance)
    ensures Zip([tag], [instance]) == [(tag, instance)]
    ensures Assign(m, [(tag, instance)]) == m[tag := instance]
    ensures TagsOf([(tag, instance)]) == {tag}
    ensures ProcessCalls([(tag, instance)]) == [Processed(tag, instance.embedding)]
    ensures UpdateCalls([(tag, instance)]) == [Updated(tag, instance.embedding)]
    ensures FirstMissing(m, [(tag, instance)]) == (if tag in m then 1 else 0)
    ensures [(tag, instance)][..FirstMissing(m, [(tag, instance)])] == if tag in m then [(tag, instance)] else []
  {
    assert [(tag, instance)][..0] == [];
    assert [(tag, instance)][1..] == [];
    assert [(tag, instance)][..1] == [(tag, instance)];
  }

  /** Zipping tags against an empty list of instances assigns nothing. */
  lemma EmptyPairs(tags: seq<string>)
    ensures Zip<string, Instance>(tags, []) == []
  {
    var empty: seq<Instance> := [];
    assert |Zip(tags, empty)| == 0;
  }

  // ---------------------------------------------------------------------------
  // Properties that relate several members

  /**
   * With the store and the index in agreement, and an index that lists only
   * tags it knows, the consistency guard of the query path skips nothing:
   * the scorings name exactly the candidate tags, in the index's order.
   */
  lemma ConsistentStoreSkipsNothing(trigger: TriggerInterface, instance: Instance)
    requires trigger.Consistent() && trigger.instancesMap != map[]
    requires forall t :: t in trigger.CandidateTags(instance) ==> t in trigger.processor.tags
    ensures ScoredTags(trigger.GetScoringsForInstance(instance)) == trigger.CandidateTags(instance)
  {
    KnownTagsAll(trigger.instancesMap, trigger.CandidateTags(instance));
  }

  /** When the index lists each tag of a cluster once, no tag is scored twice. */
  lemma NoDuplicateScoredTags(trigger: TriggerInterface, instance: Instance)
    requires NoDuplicates(trigger.CandidateTags(instance))
    ensures NoDuplicates(ScoredTags(trigger.GetScoringsForInstance(instance)))
    ensures NoDuplicates(ScoredTags(trigger.GetMatchesForInstance(instance)))
  {
    var scorings := trigger.GetScoringsForInstance(instance);
    if trigger.instancesMap != map[] {
      SubsequenceNoDuplicates(ScoredTags(scorings), trigger.CandidateTags(instance));
    }
    var matches := trigger.GetMatchesForInstance(instance);
    ScoredTagsOfSubsequence(matches, scorings);
    SubsequenceNoDuplicates(ScoredTags(matches), ScoredTags(scorings));
  }

  lemma {:induction false} ScoredTagsOfSubsequence(a: seq<Scoring>, b: seq<Scoring>)
    requires IsSubsequence(a, b)
    ensures IsSubsequence(ScoredTags(a), ScoredTags(b))
    decreases |b|
  {
    if a != [] {
      if a[0] == b[0] && IsSubsequence(a[1..], b[1..]) {
        ScoredTagsOfSubsequence(a[1..], b[1..]);
        assert ScoredTags(a)[1..] == ScoredTags(a[1..]);
        assert ScoredTags(b)[1..] == ScoredTags(b[1..]);
      } else {
        ScoredTagsOfSubsequence(a, b[1..]);
        assert ScoredTags(b)[1..] == ScoredTags(b[1..]);
      }
    }
  }

  /**
   * ADD of a tag followed by REMOVE of it leaves the tag in neither store,
   * and no later score query returns it.
   */
  method AddThenRemove(trigger: TriggerInterface, tag: string, data: Embedding, query: Instance)
    returns (scorings: seq<Scoring>)
    requires trigger.Consistent()
    modifies trigger, trigger.processor
    ensures tag !in trigger.instancesMap && tag !in trigger.processor.tags
    ensures forall s :: s in scorings ==> s.scoredTag != tag
    ensures trigger.Consistent()
  {
    var added := trigger.OnOperation(Add(tag, None, NdArray(data)), Evaluators(_ => map[], (_, _) => map[]));
    assert tag in trigger.instancesMap;
    var removed := trigger.OnOperation(Remove(tag), Evaluators(_ => map[], (_, _) => map[]));
    assert removed == Ok(NoResult);
    scorings := trigger.GetScoringsForInstance(query);
  }
}
