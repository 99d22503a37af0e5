/** The static helpers of the features engine: turning a track's feature
    values into a fixed-length SOM input vector, laying out the per-dimension
    weights, and summing the declared dimensions of a feature set
    (FeaturesEngine.cpp, lines 90-141). */
module FeatureVectors {
  import opened Wrappers
  import opened SeqUtils

  type FeatureName = string

  /** `getFeatureDef(name).nbDimensions`: the declared dimension of every
      feature. The table itself lives outside the engine. */
  type FeatureDefs = FeatureName -> nat

  /** One entry of a `FeatureValuesMap`, in the map's iteration order. */
  datatype FeatureValues = FeatureValues(name: FeatureName, values: seq<real>)
  type FeatureValuesMap = seq<FeatureValues>

  /** One entry of a `FeatureSettingsMap`: a feature taking part in training
      and its relative weight. */
  datatype FeatureSetting = FeatureSetting(name: FeatureName, weight: real)
  type FeatureSettingsMap = seq<FeatureSetting>

  type InputVector = seq<real>

  /** One slot of the weight vector. `Share(f, w, n)` stands for the value
      `1. / n * w` that the engine stores for each of the `n` dimensions of
      feature `f` of weight `w`; `Zero` is a slot never written. */
  datatype SlotWeight = Zero | Share(feature: FeatureName, weight: real, nbDimensions: nat)

  /* ---------------- dimension sums ---------------- */

  function ValueNames(m: FeatureValuesMap): seq<FeatureName> {
    seq(|m|, i requires 0 <= i < |m| => m[i].name)
  }

  function SettingNames(s: FeatureSettingsMap): seq<FeatureName> {
    seq(|s|, i requires 0 <= i < |s| => s[i].name)
  }

  /** Sum of the declared dimensions of a list of feature names. */
  function SeqDims(names: seq<FeatureName>, defs: FeatureDefs): nat {
    if |names| == 0 then 0 else SeqDims(names[..|names| - 1], defs) + defs(names[|names| - 1])
  }

  /** Sum of the declared dimensions over a set of feature names: what
      `std::accumulate` computes over the `unordered_set` of training names. */
  ghost function SetDims(names: set<FeatureName>, defs: FeatureDefs): nat
    decreases names
  {
    if names == {} then 0
    else
      var n :| n in names;
      defs(n) + SetDims(names - {n}, defs)
  }

  /** Taking out any element of the set, not only the chosen one, gives the
      same sum. */
  lemma {:induction false} SetDimsRemove(names: set<FeatureName>, x: FeatureName, defs: FeatureDefs)
    requires x in names
    ensures SetDims(names, defs) == defs(x) + SetDims(names - {x}, defs)
    decreases names
  {
    var n :| n in names && SetDims(names, defs) == defs(n) + SetDims(names - {n}, defs);
    if n != x {
      SetDimsRemove(names - {n}, x, defs);
      SetDimsRemove(names - {x}, n, defs);
      assert names - {n} - {x} == names - {x} - {n};
    }
  }

  lemma {:induction false} SetDimsSubset(a: set<FeatureName>, b: set<FeatureName>, defs: FeatureDefs)
    requires a <= b
    ensures SetDims(a, defs) <= SetDims(b, defs)
    decreases b
  {
    if b != {} {
      var x :| x in b;
      SetDimsRemove(b, x, defs);
      if x in a {
        SetDimsRemove(a, x, defs);
        SetDimsSubset(a - {x}, b - {x}, defs);
      } else {
        SetDimsSubset(a, b - {x}, defs);
      }
    }
  }

  /** Over duplicate-free names, the sum over the list equals the sum over
      its set: the engine may size vectors from either. */
  lemma {:induction false} SeqDimsIsSetDims(names: seq<FeatureName>, defs: FeatureDefs)
    requires forall i, j :: 0 <= i < j < |names| ==> names[i] != names[j]
    ensures SeqDims(names, defs) == SetDims((set n | n in names), defs)
  {
    if |names| > 0 {
      var init := names[..|names| - 1];
      var last := names[|names| - 1];
      SeqDimsIsSetDims(init, defs);
      var s := set n | n in names;
      assert last in s;
      SetDimsRemove(s, last, defs);
      NamesWithoutLast(names);
    }
  }

  lemma NamesWithoutLast(names: seq<FeatureName>)
    requires |names| > 0
    requires forall i, j :: 0 <= i < j < |names| ==> names[i] != names[j]
    ensures Elems(names) - {names[|names| - 1]} == Elems(names[..|names| - 1])
  {
    var init := names[..|names| - 1];
    forall n | n in init ensures n != names[|names| - 1] {
      var i :| 0 <= i < |init| && init[i] == n;
    }
    assert names == init + [names[|names| - 1]];
  }

  /** The `std::accumulate` over the training feature names: takes the names
      out of the set one at a time, in whatever order the set gives them. */
  method NbDimensions(names: set<FeatureName>, defs: FeatureDefs) returns (sum: nat)
    ensures sum == SetDims(names, defs)
  {
    sum := 0;
    var rest := names;
    while rest != {}
      invariant rest <= names
      invariant sum + SetDims(rest, defs) == SetDims(names, defs)
      decreases rest
    {
      var n :| n in rest;
      SetDimsRemove(rest, n, defs);
      sum := sum + defs(n);
      rest := rest - {n};
    }
  }

  /* ---------------- conversion to an input vector ---------------- */

  /** The values of every entry, concatenated in map order. */
  function Concat(m: FeatureValuesMap): seq<real> {
    if |m| == 0 then [] else Concat(m[..|m| - 1]) + m[|m| - 1].values
  }

  /** Every entry holds exactly its declared number of values. */
  predicate DimensionsMatch(m: FeatureValuesMap, defs: FeatureDefs) {
    forall i :: 0 <= i < |m| ==> |m[i].values| == defs(m[i].name)
  }

  /** When all dimensions match, the concatenation is as long as the declared
      dimensions of the map's features. */
  lemma {:induction false} ConcatLength(m: FeatureValuesMap, defs: FeatureDefs)
    requires DimensionsMatch(m, defs)
    ensures |Concat(m)| == SeqDims(ValueNames(m), defs)
  {
    if |m| > 0 {
      var init := m[..|m| - 1];
      assert ValueNames(m)[..|m| - 1] == ValueNames(init);
      ConcatLength(init, defs);
    }
  }

  /** What the conversion yields: nothing when some feature's value count
      differs from its declared dimension, otherwise a vector of
      `nbDimensions` slots holding the concatenated values followed by the
      zeros of slots never written. */
  function InputVectorOf(m: FeatureValuesMap, defs: FeatureDefs, nbDimensions: nat): (r: Option<InputVector>)
    requires SeqDims(ValueNames(m), defs) <= nbDimensions
    ensures r.None? <==> exists i :: 0 <= i < |m| && |m[i].values| != defs(m[i].name)
    ensures r.Some? ==> |Concat(m)| <= nbDimensions && |r.value| == nbDimensions && r.value[..|Concat(m)|] == Concat(m)
    ensures r.Some? ==> forall k :: |Concat(m)| <= k < nbDimensions ==> r.value[k] == 0.0
  {
    if DimensionsMatch(m, defs) then
      ConcatLength(m, defs);
      Some(Concat(m) + seq(nbDimensions - |Concat(m)|, _ => 0.0))
    else None
  }

  /** `convertFeatureValuesMapToInputVector`: fills a zeroed vector of
      `nbDimensions` slots feature by feature and gives up on the first
      feature whose value count is not its declared dimension. The caller
      guarantees the vector is large enough for the map's features. */
  method ConvertFeatureValuesMapToInputVector(m: FeatureValuesMap, defs: FeatureDefs, nbDimensions: nat)
    returns (res: Option<InputVector>)
    requires SeqDims(ValueNames(m), defs) <= nbDimensions
    ensures res == InputVectorOf(m, defs, nbDimensions)
  {
    var v := new real[nbDimensions](_ => 0.0);
    var i := 0;
    for e := 0 to |m|
      invariant DimensionsMatch(m[..e], defs)
      invariant i == |Concat(m[..e])| == SeqDims(ValueNames(m[..e]), defs)
      invariant i <= SeqDims(ValueNames(m), defs)
      invariant v[..i] == Concat(m[..e])
      invariant forall k :: i <= k < nbDimensions ==> v[k] == 0.0
    {
      var values := m[e].values;
      if |values| != defs(m[e].name) {
        assert !DimensionsMatch(m, defs);
        return None;
      }
      ConvertStep(m, e, defs);
      WriteValues(v, i, values);
      assert v[..i + |values|] == Concat(m[..e + 1]) by {
        SliceSplit(v[..], i, i + |values|);
      }
      i := i + |values|;
    }
    assert m[..|m|] == m;
    FilledVector(m, defs, nbDimensions, v[..], i);
    res := Some(v[..]);
  }

  lemma SliceSplit(s: seq<real>, i: nat, j: nat)
    requires i <= j <= |s|
    ensures s[..j] == s[..i] + s[i..j]
  {
  }

  /** A vector holding the concatenated values, then zeros, is the
      conversion's result. */
  lemma FilledVector(m: FeatureValuesMap, defs: FeatureDefs, nbDimensions: nat, v: seq<real>, i: nat)
    requires SeqDims(ValueNames(m), defs) <= nbDimensions
    requires DimensionsMatch(m, defs) && i == |Concat(m)| <= |v| == nbDimensions
    requires v[..i] == Concat(m)
    requires forall k :: i <= k < nbDimensions ==> v[k] == 0.0
    ensures InputVectorOf(m, defs, nbDimensions) == Some(v)
  {
    assert v == v[..i] + v[i..];
    assert v[i..] == seq(nbDimensions - i, _ => 0.0);
  }

  /** One feature more: its values follow the previous ones and its
      dimension adds to theirs, still within the map's total. */
  lemma ConvertStep(m: FeatureValuesMap, e: nat, defs: FeatureDefs)
    requires e < |m|
    ensures m[..e + 1][..e] == m[..e]
    ensures Concat(m[..e + 1]) == Concat(m[..e]) + m[e].values
    ensures SeqDims(ValueNames(m[..e + 1]), defs) == SeqDims(ValueNames(m[..e]), defs) + defs(m[e].name)
    ensures SeqDims(ValueNames(m[..e + 1]), defs) <= SeqDims(ValueNames(m), defs)
    ensures DimensionsMatch(m[..e], defs) && |m[e].values| == defs(m[e].name) ==> DimensionsMatch(m[..e + 1], defs)
  {
    assert m[..e + 1][..e] == m[..e];
    assert ValueNames(m[..e + 1])[..e] == ValueNames(m[..e]);
    assert ValueNames(m)[..e + 1] == ValueNames(m[..e + 1]);
    SeqDimsPrefix(ValueNames(m), e + 1, defs);
  }

  /** The inner loop of the conversion: `(*res)[i++] = val` for each value. */
  method WriteValues(v: array<real>, i: nat, values: seq<real>)
    requires i + |values| <= v.Length
    modifies v
    ensures v[..i] == old(v[..i])
    ensures v[i..i + |values|] == values
    ensures forall k :: i + |values| <= k < v.Length ==> v[k] == old(v[k])
  {
    for j := 0 to |values|
      invariant v[..i] == old(v[..i])
      invariant v[i..i + j] == values[..j]
      invariant forall k :: i + j <= k < v.Length ==> v[k] == old(v[k])
    {
      v[i + j] := values[j];
    }
  }

  lemma {:induction false} SeqDimsPrefix(names: seq<FeatureName>, k: nat, defs: FeatureDefs)
    requires k <= |names|
    ensures SeqDims(names[..k], defs) <= SeqDims(names, defs)
    decreases |names|
  {
    if k < |names| {
      assert names[..|names| - 1][..k] == names[..k];
      SeqDimsPrefix(names[..|names| - 1], k, defs);
    } else {
      assert names[..k] == names;
    }
  }

  /** When the map holds exactly the training features, in the same order and
      with matching dimensions, the vector has no padding: value `i` of
      feature `j` sits in slot `Offset(j) + i`, the same slot the weight
      layout gives to that feature. */
  lemma {:induction false} InputVectorAlignsWithWeights(m: FeatureValuesMap, s: FeatureSettingsMap, defs: FeatureDefs, j: nat, i: nat)
    requires ValueNames(m) == SettingNames(s)
    requires DimensionsMatch(m, defs)
    requires j < |m| && i < defs(m[j].name)
    ensures SeqDims(ValueNames(m), defs) == SeqDims(SettingNames(s), defs)
    ensures InputVectorOf(m, defs, SeqDims(SettingNames(s), defs)) == Some(Concat(m))
    ensures SeqDims(ValueNames(m[..j]), defs) + i < |Concat(m)|
    ensures Concat(m)[SeqDims(ValueNames(m[..j]), defs) + i] == m[j].values[i]
    ensures SeqDims(ValueNames(m[..j]), defs) + i < |WeightLayout(s, defs)|
    ensures WeightLayout(s, defs)[SeqDims(ValueNames(m[..j]), defs) + i]
         == Share(m[j].name, s[j].weight, defs(m[j].name))
  {
    ConcatLength(m, defs);
    ConcatAt(m, defs, j, i);
    assert |Concat(m)| == SeqDims(SettingNames(s), defs);
    assert Concat(m) + seq(0, _ => 0.0) == Concat(m);
    assert |m| == |ValueNames(m)| == |SettingNames(s)| == |s|;
    assert SettingNames(s[..j]) == SettingNames(s)[..j] == ValueNames(m)[..j] == ValueNames(m[..j]);
    assert ValueNames(m)[j] == SettingNames(s)[j];
    WeightLayoutAt(s, defs, j, i);
  }

  lemma {:induction false} ConcatAt(m: FeatureValuesMap, defs: FeatureDefs, j: nat, i: nat)
    requires DimensionsMatch(m, defs)
    requires j < |m| && i < |m[j].values|
    ensures SeqDims(ValueNames(m[..j]), defs) + i < |Concat(m)|
    ensures Concat(m)[SeqDims(ValueNames(m[..j]), defs) + i] == m[j].values[i]
  {
    var init := m[..|m| - 1];
    assert ValueNames(m)[..|m| - 1] == ValueNames(init);
    if j == |m| - 1 {
      assert init == m[..j];
      ConcatLength(init, defs);
    } else {
      assert init[..j] == m[..j];
      ConcatAt(init, defs, j, i);
    }
  }

  /* ---------------- weight layout ---------------- */

  /** The weight vector: for each feature of the settings, in map order, one
      slot per declared dimension, each carrying that feature's share. */
  function WeightLayout(s: FeatureSettingsMap, defs: FeatureDefs): seq<SlotWeight> {
    if |s| == 0 then []
    else
      var last := s[|s| - 1];
      WeightLayout(s[..|s| - 1], defs) + seq(defs(last.name), _ => Share(last.name, last.weight, defs(last.name)))
  }

  /** The layout has one slot per dimension, and feature `j` owns the slots
      from the sum of the dimensions before it, every one of them written. */
  lemma {:induction false} WeightLayoutAt(s: FeatureSettingsMap, defs: FeatureDefs, j: nat, i: nat)
    requires j < |s| && i < defs(s[j].name)
    ensures |WeightLayout(s, defs)| == SeqDims(SettingNames(s), defs)
    ensures SeqDims(SettingNames(s[..j]), defs) + i < |WeightLayout(s, defs)|
    ensures WeightLayout(s, defs)[SeqDims(SettingNames(s[..j]), defs) + i]
         == Share(s[j].name, s[j].weight, defs(s[j].name))
  {
    var init := s[..|s| - 1];
    assert SettingNames(s)[..|s| - 1] == SettingNames(init);
    WeightLayoutLength(init, defs);
    if j < |s| - 1 {
      assert init[..j] == s[..j];
      WeightLayoutAt(init, defs, j, i);
    } else {
      assert init == s[..j];
    }
  }

  /** One feature more: its slots follow the previous ones, within the
      total of the settings. */
  lemma WeightsStep(s: FeatureSettingsMap, f: nat, defs: FeatureDefs)
    requires f < |s|
    ensures SeqDims(SettingNames(s[..f + 1]), defs) == SeqDims(SettingNames(s[..f]), defs) + defs(s[f].name)
    ensures SeqDims(SettingNames(s[..f + 1]), defs) <= SeqDims(SettingNames(s), defs)
    ensures WeightLayout(s[..f + 1], defs) == WeightLayout(s[..f], defs) + seq(defs(s[f].name), _ => Share(s[f].name, s[f].weight, defs(s[f].name)))
  {
    assert s[..f + 1][..f] == s[..f];
    assert SettingNames(s[..f + 1])[..f] == SettingNames(s[..f]);
    assert SettingNames(s)[..f + 1] == SettingNames(s[..f + 1]);
    SeqDimsPrefix(SettingNames(s), f + 1, defs);
  }

  /** The inner loop of the weights: `n` consecutive slots from `index` get
      the same share. */
  method FillShares(w: array<SlotWeight>, index: nat, n: nat, share: SlotWeight)
    requires index + n <= w.Length
    modifies w
    ensures w[..index + n] == old(w[..index]) + seq(n, _ => share)
  {
    for i := 0 to n
      invariant w[..index + i] == old(w[..index]) + seq(i, _ => share)
    {
      w[index + i] := share;
      assert seq(i + 1, _ => share) == seq(i, _ => share) + [share];
    }
  }

  lemma {:induction false} WeightLayoutLength(s: FeatureSettingsMap, defs: FeatureDefs)
    ensures |WeightLayout(s, defs)| == SeqDims(SettingNames(s), defs)
    ensures forall k :: 0 <= k < |WeightLayout(s, defs)| ==> WeightLayout(s, defs)[k].Share?
  {
    if |s| > 0 {
      var init := s[..|s| - 1];
      assert SettingNames(s)[..|s| - 1] == SettingNames(init);
      WeightLayoutLength(init, defs);
    }
  }

  /** `getInputVectorWeights`: writes, feature after feature, the share of
      each feature into as many consecutive slots as it has dimensions. The
      caller sizes the vector with the sum of the settings' dimensions, which
      the source asserts the index reaches. */
  method GetInputVectorWeights(s: FeatureSettingsMap, defs: FeatureDefs, nbDimensions: nat)
    returns (weights: seq<SlotWeight>)
    requires nbDimensions == SeqDims(SettingNames(s), defs)
    ensures weights == WeightLayout(s, defs)
    ensures |weights| == nbDimensions
  {
    var w := new SlotWeight[nbDimensions](_ => Zero);
    var index := 0;
    for f := 0 to |s|
      invariant index == SeqDims(SettingNames(s[..f]), defs) <= nbDimensions
      invariant w[..index] == WeightLayout(s[..f], defs)
    {
      var n := defs(s[f].name);
      WeightsStep(s, f, defs);
      FillShares(w, index, n, Share(s[f].name, s[f].weight, n));
      index := index + n;
    }
    assert s[..|s|] == s;
    assert w[..] == w[..index];
    weights := w[..];
    WeightLayoutLength(s, defs);
  }
}
