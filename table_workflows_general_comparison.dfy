/**
 * The label columns of the general workflow-comparison table: the dataset of a
 * semantic map and the query type of a query id. The DataFrame steps around
 * them are not part of this model.
 */
module TableWorkflowsGeneralComparison {
  import opened Wrappers
  import opened Strings

  /** The query-number buckets: 1-10, 11-20, 21-30, anything else. */
  function QueryTypeOfNumber(n: int): (r: string)
    ensures r == "Descriptive" <==> 1 <= n <= 10
    ensures r == "Affordance" <==> 11 <= n <= 20
    ensures r == "Negation" <==> 21 <= n <= 30
    ensures r == "Unknown" <==> n < 1 || 30 < n
  {
    if 1 <= n <= 10 then "Descriptive"
    else if 11 <= n <= 20 then "Affordance"
    else if 21 <= n <= 30 then "Negation"
    else "Unknown"
  }

  /** `_map_semantic_map_to_dataset`: by the prefixes "scannet_" and "scenenn_". */
  function MapSemanticMapToDataset(semanticMap: string): (r: string)
    ensures r == "scannet" <==> StartsWith(semanticMap, "scannet_")
    ensures r == "scenenn" <==> StartsWith(semanticMap, "scenenn_")
    ensures r == "unknown" <==> !StartsWith(semanticMap, "scannet_") && !StartsWith(semanticMap, "scenenn_")
  {
    if StartsWith(semanticMap, "scannet_") then "scannet"
    else if StartsWith(semanticMap, "scenenn_") then "scenenn"
    else "unknown"
  }

  /**
   * `_map_query_id_to_query_type`: "Average" stays "Average"; otherwise the
   * number after the last `_` picks the bucket, and a piece that `int` rejects
   * gives "Unknown" instead of raising.
   */
  function MapQueryIdToQueryType(queryId: string): (r: string)
    ensures queryId == "Average" ==> r == "Average"
    ensures queryId != "Average" && ParseInt(LastPiece(queryId, '_')).None? ==> r == "Unknown"
  {
    if queryId == "Average" then "Average"
    else
      match ParseInt(LastPiece(queryId, '_'))
      case None => "Unknown"
      case Some(n) => QueryTypeOfNumber(n)
  }

  /** An id `<anything>_<n>` is classified by `n` alone. */
  lemma QueryTypeOfNumberedId(prefix: string, n: int)
    ensures MapQueryIdToQueryType(prefix + "_" + IntToString(n)) == QueryTypeOfNumber(n)
  {
    var id := prefix + "_" + IntToString(n);
    assert id != "Average" by {
      assert id[|prefix|] == '_';
    }
    assert forall j :: 0 <= j < |IntToString(n)| ==> IntToString(n)[j] != '_';
    LastPieceAfterSeparator(prefix, '_', IntToString(n));
    ParseIntOfIntToString(n);
  }

  /** An id without `_` is read as a number as a whole. */
  lemma QueryTypeOfPlainId(queryId: string)
    requires queryId != "Average"
    requires forall j :: 0 <= j < |queryId| ==> queryId[j] != '_'
    ensures MapQueryIdToQueryType(queryId) ==
            match ParseInt(queryId) case None => "Unknown" case Some(n) => QueryTypeOfNumber(n)
  {
    SplitWithout(queryId, '_');
  }
}
