/**
 * The label columns of table 1. Unlike the general comparison table, the
 * dataset test wants the longer prefix "scannet_scene", and the query-type
 * mapping has no "Average" case and no handler around `int`.
 */
module Table1 {
  import opened Wrappers
  import opened Strings
  import TableWorkflowsGeneralComparison

  /** `map_dataset`. */
  function MapDataset(semanticMap: string): (r: string)
    ensures r == "scannet" <==> StartsWith(semanticMap, "scannet_scene")
    ensures r == "scenenn" <==> !StartsWith(semanticMap, "scannet_scene") && StartsWith(semanticMap, "scenenn_")
    ensures r == "unknown" <==> !StartsWith(semanticMap, "scannet_scene") && !StartsWith(semanticMap, "scenenn_")
  {
    if StartsWith(semanticMap, "scannet_scene") then "scannet"
    else if StartsWith(semanticMap, "scenenn_") then "scenenn"
    else "unknown"
  }

  /** `map_query_type`: `int` raising `ValueError` on the last piece propagates. */
  function MapQueryType(queryId: string): (r: Result<string, string>)
    ensures r.Err? <==> ParseInt(LastPiece(queryId, '_')).None?
    ensures r.Err? ==> r.error == "ValueError"
  {
    match ParseInt(LastPiece(queryId, '_'))
    case None => Err("ValueError")
    case Some(n) => Ok(TableWorkflowsGeneralComparison.QueryTypeOfNumber(n))
  }

  /** Every map table 1 files under "scannet" the general table does too, but not conversely. */
  lemma DatasetNarrowerThanGeneral(semanticMap: string)
    ensures MapDataset(semanticMap) == "scannet" ==>
            TableWorkflowsGeneralComparison.MapSemanticMapToDataset(semanticMap) == "scannet"
    ensures MapDataset("scannet_x") == "unknown"
    ensures TableWorkflowsGeneralComparison.MapSemanticMapToDataset("scannet_x") == "scannet"
  {
    if StartsWith(semanticMap, "scannet_scene") {
      assert semanticMap[..8] == semanticMap[..13][..8];
    }
    assert "scannet_x"[..8] == "scannet_";
  }

  /** Wherever both tables classify an id, they agree; "Average" is where table 1 raises. */
  lemma QueryTypeAgreesWithGeneral(queryId: string)
    ensures MapQueryType(queryId).Ok? ==>
            TableWorkflowsGeneralComparison.MapQueryIdToQueryType(queryId) == MapQueryType(queryId).value
    ensures MapQueryType("Average") == Err("ValueError")
  {
    AverageIsNotANumber();
    if MapQueryType(queryId).Ok? {
      assert queryId != "Average";
    }
  }

  /** `int("Average")` raises. */
  lemma AverageIsNotANumber()
    ensures ParseInt("Average").None?
    ensures LastPiece("Average", '_') == "Average"
  {
    SplitWithout("Average", '_');
    StripUnchanged("Average");
    assert !IsDigit("Average"[0]);
  }
}
