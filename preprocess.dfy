/**
 * Semantic-map filtering in `voxelad/preprocess.py`. A semantic map's
 * `"instances"` table lists objects in dict order; each object's `"results"`
 * lists (label, certainty) pairs in dict order. Certainties are only compared,
 * never combined.
 */
module Preprocess {
  import opened Wrappers

  const UnknownLabel: string := "unknown"
  const InstancesKey: string := "instances"

  /** `(result_key, result_value)` pairs of an object's `"results"` dict. */
  type Results = seq<(string, real)>

  /** An object of the map; `results` is `None` when the dict has no `"results"` key. */
  datatype Instance = Instance(results: Option<Results>, bboxCenter: seq<real>, bboxSize: seq<real>, nObservations: int)

  /** A top-level value: the instances table, or any other JSON value. */
  datatype Section = Instances(entries: seq<(string, Instance)>) | OtherValue

  type SemanticMap = map<string, Section>

  /**
   * Index of the first pair with the greatest certainty; -1 for no pairs.
   * Everything before it scores strictly less, everything after at most as much.
   */
  function ArgMax(rs: Results): (i: int)
    ensures -1 <= i < |rs|
    ensures i == -1 <==> rs == []
    ensures 0 <= i ==> forall k :: 0 <= k < |rs| ==> rs[k].1 <= rs[i].1
    ensures 0 <= i ==> forall k :: 0 <= k < i ==> rs[k].1 < rs[i].1
  {
    if rs == [] then -1
    else
      var j := ArgMax(rs[..|rs| - 1]);
      if j == -1 || rs[j].1 < rs[|rs| - 1].1 then |rs| - 1 else j
  }

  /** The first maximum is the only index `ArgMax` can return. */
  lemma ArgMaxIs(rs: Results, i: nat)
    requires i < |rs|
    requires forall k :: 0 <= k < |rs| ==> rs[k].1 <= rs[i].1
    requires forall k :: 0 <= k < i ==> rs[k].1 < rs[i].1
    ensures ArgMax(rs) == i
  {
  }

  /** The label the inner loop ends with: `None` when there are no results. */
  function MaxLabel(rs: Results): (top: Option<string>)
    ensures top.None? <==> rs == []
    ensures top.Some? ==> top.value == rs[ArgMax(rs)].0
  {
    var i := ArgMax(rs);
    if i == -1 then None else Some(rs[i].0)
  }

  /**
   * The inner loop of `reduce_class_uncertainty`: keeps the running maximum,
   * replacing it only on a strictly greater certainty.
   */
  method MaxResultKey(rs: Results) returns (maxKey: Option<string>)
    ensures maxKey == MaxLabel(rs)
  {
    maxKey := None;
    var maxValue: real := 0.0;
    var best := -1;
    for i := 0 to |rs|
      invariant best == ArgMax(rs[..i])
      invariant maxKey == (if best == -1 then None else Some(rs[best].0))
      invariant best != -1 ==> maxValue == rs[best].1
    {
      assert rs[..i + 1][..i] == rs[..i];
      if maxKey.None? || maxValue < rs[i].1 {
        maxKey := Some(rs[i].0);
        maxValue := rs[i].1;
        best := i;
      }
    }
    assert rs[..|rs|] == rs;
  }

  /** An object is kept unless its top label is "unknown"; one with no results is kept. */
  predicate Kept(rs: Results)
  {
    MaxLabel(rs) != Some(UnknownLabel)
  }

  /** The instances that survive, in their original order, each unchanged. */
  function Filtered(entries: seq<(string, Instance)>): (r: Result<seq<(string, Instance)>, string>)
  {
    if entries == [] then Ok([])
    else
      var last := entries[|entries| - 1];
      match Filtered(entries[..|entries| - 1])
      case Err(e) => Err(e)
      case Ok(kept) =>
        match last.1.results
        case None => Err("KeyError")
        case Some(rs) => Ok(kept + (if Kept(rs) then [last] else []))
  }

  /** What `reduce_class_uncertainty` returns, or the exception it raises. */
  function ReducedMap(data: SemanticMap): Result<SemanticMap, string>
  {
    if InstancesKey !in data then Err("KeyError")
    else
      match data[InstancesKey]
      case OtherValue => Err("AttributeError")
      case Instances(entries) =>
        match Filtered(entries)
        case Err(e) => Err(e)
        case Ok(kept) => Ok(map[InstancesKey := Instances(kept)])
  }

  /**
   * `reduce_class_uncertainty`: a new map whose only key is "instances",
   * holding the objects whose arg-max label is not "unknown".
   */
  method ReduceClassUncertainty(data: SemanticMap) returns (r: Result<SemanticMap, string>)
    ensures r == ReducedMap(data)
  {
    if InstancesKey !in data {
      return Err("KeyError");
    }
    var section := data[InstancesKey];
    if section.OtherValue? {
      return Err("AttributeError");
    }
    var entries := section.entries;
    var kept: seq<(string, Instance)> := [];
    for i := 0 to |entries|
      invariant Filtered(entries[..i]) == Ok(kept)
    {
      assert entries[..i + 1][..i] == entries[..i];
      assert entries[..i + 1][i] == entries[i];
      var objectValue := entries[i].1;
      if objectValue.results.None? {
        FilteredMissingResults(entries, i);
        return Err("KeyError");
      }
      var maxKey := MaxResultKey(objectValue.results.value);
      ghost var before := kept;
      if maxKey != Some(UnknownLabel) {
        kept := kept + [entries[i]];
      }
      assert kept == before + (if Kept(objectValue.results.value) then [entries[i]] else []);
    }
    assert entries[..|entries|] == entries;
    return Ok(map[InstancesKey := Instances(kept)]);
  }

  /** The output holds exactly the input's entries whose results are kept, none altered. */
  lemma {:induction false} FilteredExactly(entries: seq<(string, Instance)>)
    requires forall k :: 0 <= k < |entries| ==> entries[k].1.results.Some?
    ensures Filtered(entries).Ok?
    ensures forall e :: e in Filtered(entries).value <==> e in entries && Kept(e.1.results.value)
    ensures |Filtered(entries).value| <= |entries|
  {
    if entries != [] {
      var init := entries[..|entries| - 1];
      FilteredExactly(init);
      assert entries == init + [entries[|entries| - 1]];
    }
  }

  /** A missing `"results"` anywhere in the table makes the whole call raise `KeyError`. */
  lemma {:induction false} FilteredMissingResults(entries: seq<(string, Instance)>, k: nat)
    requires k < |entries| && entries[k].1.results.None?
    ensures Filtered(entries) == Err("KeyError")
  {
    var init := entries[..|entries| - 1];
    if k < |entries| - 1 {
      assert init[k] == entries[k];
      FilteredMissingResults(init, k);
    } else {
      match Filtered(init)
      case Err(e) =>
        FilteredErrorIsKeyError(init);
      case Ok(_) =>
    }
  }

  /** The only exception the filtering loop raises is `KeyError`. */
  lemma {:induction false} FilteredErrorIsKeyError(entries: seq<(string, Instance)>)
    ensures Filtered(entries).Err? ==> Filtered(entries).error == "KeyError"
  {
    if entries != [] {
      FilteredErrorIsKeyError(entries[..|entries| - 1]);
    }
  }

  /** Ties go to the label met first: an "unknown" that ties with a later label still drops the object. */
  lemma TieGoesToFirst(other: string, score: real)
    ensures !Kept([(UnknownLabel, score), (other, score)])
    ensures other != UnknownLabel ==> Kept([(other, score), (UnknownLabel, score)])
  {
    ArgMaxIs([(UnknownLabel, score), (other, score)], 0);
    ArgMaxIs([(other, score), (UnknownLabel, score)], 0);
  }

  /** The result's only key is "instances". */
  lemma ReducedMapKeys(data: SemanticMap)
    ensures ReducedMap(data).Ok? ==> ReducedMap(data).value.Keys == {InstancesKey}
  {
  }

  /**
   * `preprocess_semantic_map`: the rounding pass (`reduce_float_precision`,
   * a parameter here), then the filtering only when `class_uncertainty` is false.
   */
  function PreprocessSemanticMap(semanticMap: SemanticMap, classUncertainty: bool,
                                 roundFloats: SemanticMap -> SemanticMap): (r: Result<SemanticMap, string>)
    ensures classUncertainty ==> r == Ok(roundFloats(semanticMap))
    ensures !classUncertainty ==> r == ReducedMap(roundFloats(semanticMap))
  {
    var rounded := roundFloats(semanticMap);
    if !classUncertainty then ReducedMap(rounded) else Ok(rounded)
  }
}
