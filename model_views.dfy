/**
 * The two views of the model that `StatsListener` builds with loops: the activation map
 * of a sequential network and the gathered learning rates.
 */
module ModelViews {
  import opened StatsTypes
  import opened Decimal

  /** The keys `getActivationArraysMap` uses for a network of n layers: "0", ..., "n-2". */
  function ActivationKeys(layerCount: nat): set<string>
  {
    set k | 0 <= k < layerCount - 1 :: NatToString(k)
  }

  lemma ActivationKeysStep(n: nat)
    requires n >= 1
    ensures ActivationKeys(n + 1) == ActivationKeys(n) + {NatToString(n - 1)}
    ensures NatToString(n - 1) !in ActivationKeys(n)
  {
    forall k | 0 <= k < n - 1 ensures NatToString(k) != NatToString(n - 1) {
      NatToStringInjective(k, n - 1);
    }
  }

  /** The map after the loop body has run for layers 1 .. i-1. */
  ghost predicate ActivationsUpTo(m: map<string, NDArray>, layers: seq<Layer>, i: nat)
    requires 1 <= i <= if |layers| == 0 then 1 else |layers|
  {
    && m.Keys == ActivationKeys(i)
    && |m| == i - 1
    && forall k :: 0 <= k < i - 1 ==> m[NatToString(k)] == layers[k + 1].input
  }

  lemma ExtendActivations(m: map<string, NDArray>, layers: seq<Layer>, i: nat)
    requires 1 <= i < |layers| && ActivationsUpTo(m, layers, i)
    ensures ActivationsUpTo(m[NatToString(i - 1) := layers[i].input], layers, i + 1)
  {
    ExtendActivationKeys(m, layers[i].input, i);
    ExtendActivationValues(m, layers, i);
  }

  /** One more key: the keys grow by "i-1", which was not there yet. */
  lemma ExtendActivationKeys(m: map<string, NDArray>, v: NDArray, i: nat)
    requires i >= 1 && m.Keys == ActivationKeys(i) && |m| == i - 1
    ensures m[NatToString(i - 1) := v].Keys == ActivationKeys(i + 1)
    ensures |m[NatToString(i - 1) := v]| == i
  {
    ActivationKeysStep(i);
  }

  /** The keys already present keep their arrays. */
  lemma ExtendActivationValues(m: map<string, NDArray>, layers: seq<Layer>, i: nat)
    requires 1 <= i < |layers| && m.Keys == ActivationKeys(i)
    requires forall k :: 0 <= k < i - 1 ==> m[NatToString(k)] == layers[k + 1].input
    ensures forall k :: 0 <= k < i ==> m[NatToString(i - 1) := layers[i].input][NatToString(k)] == layers[k + 1].input
  {
    var m' := m[NatToString(i - 1) := layers[i].input];
    forall k | 0 <= k < i ensures m'[NatToString(k)] == layers[k + 1].input {
      if k < i - 1 {
        NatToStringInjective(k, i - 1);
        assert NatToString(k) in ActivationKeys(i);
        assert m'[NatToString(k)] == m[NatToString(k)];
      }
    }
  }

  /**
   * `getActivationArraysMap`: for i >= 1, layer i's stored input under the key `i-1`;
   * anything but a MultiLayerNetwork raises UnsupportedOperationException.
   */
  method GetActivationArraysMap(model: Model) returns (r: Result<map<string, NDArray>>)
    ensures !model.topology.MultiLayerNetwork? <==> r == Err(UnsupportedOperation)
    ensures model.topology.MultiLayerNetwork? ==> r.Ok?
    ensures r.Ok? ==>
      var layers := model.topology.layers;
      && |r.value| == (if |layers| == 0 then 0 else |layers| - 1)
      && r.value.Keys == ActivationKeys(|layers|)
      && forall k :: 0 <= k < |layers| - 1 ==> r.value[NatToString(k)] == layers[k + 1].input
  {
    if !model.topology.MultiLayerNetwork? {
      return Err(UnsupportedOperation);
    }
    var layers := model.topology.layers;
    ghost var count := if |layers| == 0 then 0 else |layers| - 1;
    var m: map<string, NDArray> := map[];
    var i := 1;
    while i < |layers|
      invariant 1 <= i <= count + 1
      invariant ActivationsUpTo(m, layers, i)
    {
      var name := NatToString(i - 1);
      ExtendActivations(m, layers, i);
      m := m[name := layers[i].input];
      i := i + 1;
    }
    if |layers| == 0 {
      assert ActivationKeys(1) == {} == ActivationKeys(0);
    }
    return Ok(m);
  }

  /** The `putAll` union over the layers' learning rates, later layers overriding earlier ones. */
  function MergeLearningRates(layers: seq<Layer>): map<string, real>
  {
    if layers == [] then map[]
    else MergeLearningRates(layers[..|layers| - 1]) + layers[|layers| - 1].learningRateByParam
  }

  /** The index of the last layer that has a learning rate for parameter p, or -1. */
  function LastLayerWith(layers: seq<Layer>, p: string): (i: int)
    ensures -1 <= i < |layers|
    ensures i >= 0 ==> p in layers[i].learningRateByParam
    ensures forall j :: i < j < |layers| ==> p !in layers[j].learningRateByParam
  {
    if layers == [] then -1
    else if p in layers[|layers| - 1].learningRateByParam then |layers| - 1
    else LastLayerWith(layers[..|layers| - 1], p)
  }

  /** A parameter is in the merged map iff some layer has it, with the rate of the last such layer. */
  lemma {:induction false} MergeLearningRatesMeaning(layers: seq<Layer>, p: string)
    ensures p in MergeLearningRates(layers) <==> LastLayerWith(layers, p) >= 0
    ensures p in MergeLearningRates(layers) ==>
      MergeLearningRates(layers)[p] == layers[LastLayerWith(layers, p)].learningRateByParam[p]
  {
    if layers != [] {
      var prefix := layers[..|layers| - 1];
      MergeLearningRatesMeaning(prefix, p);
      if p !in layers[|layers| - 1].learningRateByParam && LastLayerWith(prefix, p) >= 0 {
        assert prefix[LastLayerWith(prefix, p)] == layers[LastLayerWith(prefix, p)];
      }
    }
  }

  /**
   * The learning-rate gathering of `iterationDone`: a MultiLayerNetwork merges its layers'
   * rates; the ComputationGraph branch discards the layers it looks up, so it reports nothing.
   */
  method GatherLearningRates(model: Model) returns (lrs: Option<map<string, real>>)
    ensures lrs.Some? <==> model.topology.MultiLayerNetwork?
    ensures lrs.Some? ==> lrs.value == MergeLearningRates(model.topology.layers)
  {
    if !model.topology.MultiLayerNetwork? {
      return None;
    }
    var layers := model.topology.layers;
    var merged: map<string, real> := map[];
    for i := 0 to |layers|
      invariant merged == MergeLearningRates(layers[..i])
    {
      assert layers[..i + 1][..i] == layers[..i];
      merged := merged + layers[i].learningRateByParam;
    }
    assert layers[..|layers|] == layers;
    return Some(merged);
  }
}
