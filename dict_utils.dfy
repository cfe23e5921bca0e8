/**
 * The dictionary helpers of `utils/dict_utils.py`. A Python dict is a map
 * from string keys (the only keys the callers use) whose values are `Option`s: `None` is a key present with the value `None`,
 * which is not the same as a missing key.
 */
module DictUtils {
  import opened Wrappers

  type Dict<V> = map<string, Option<V>>

  /** `d.get(k)`: the stored value, or `None` for a missing key. */
  function Get<V>(d: Dict<V>, k: string): (v: Option<V>)
    ensures k !in d ==> v == None
    ensures k in d ==> v == d[k]
  {
    if k in d then d[k] else None
  }

  /** `key in d and d[key] == value`. */
  predicate HasPair<V(==)>(d: Dict<V>, key: string, value: Option<V>)
  {
    key in d && d[key] == value
  }

  /** Index of the first dict holding `key` with `value`; -1 if none does. */
  function FirstWith<V(==)>(ds: seq<Dict<V>>, key: string, value: Option<V>): (i: int)
    ensures -1 <= i < |ds|
    ensures i == -1 ==> forall j :: 0 <= j < |ds| ==> !HasPair(ds[j], key, value)
    ensures 0 <= i ==> HasPair(ds[i], key, value) && forall j :: 0 <= j < i ==> !HasPair(ds[j], key, value)
  {
    if |ds| == 0 then -1
    else if HasPair(ds[0], key, value) then 0
    else
      var j := FirstWith(ds[1..], key, value);
      if j == -1 then -1 else j + 1
  }

  /**
   * `search_dict_by_key_value`: the first dict, in list order, that has `key`
   * with an equal value; dicts lacking `key` are passed over. `None` if no
   * dict matches.
   */
  method SearchDictByKeyValue<V(==)>(ds: seq<Dict<V>>, key: string, value: Option<V>)
    returns (r: Option<Dict<V>>)
    ensures r.None? <==> FirstWith(ds, key, value) == -1
    ensures r.Some? ==> r.value == ds[FirstWith(ds, key, value)]
  {
    var i := 0;
    while i < |ds|
      invariant 0 <= i <= |ds|
      invariant forall j :: 0 <= j < i ==> !HasPair(ds[j], key, value)
    {
      if key in ds[i] && ds[i][key] == value {
        FirstWithIs(ds, key, value, i);
        return Some(ds[i]);
      }
      i := i + 1;
    }
    return None;
  }

  /** The index characterised by `FirstWith`'s contract is the one it returns. */
  lemma FirstWithIs<V>(ds: seq<Dict<V>>, key: string, value: Option<V>, i: nat)
    requires i < |ds| && HasPair(ds[i], key, value)
    requires forall j :: 0 <= j < i ==> !HasPair(ds[j], key, value)
    ensures FirstWith(ds, key, value) == i
  {
  }

  /** Every criterion `k: v` holds as `d.get(k) == v`. */
  predicate Matches<V(==)>(d: Dict<V>, criteria: Dict<V>)
  {
    forall k :: k in criteria ==> Get(d, k) == criteria[k]
  }

  /** The dicts of `ds` that match `criteria`, in list order. */
  function Matching<V(==)>(ds: seq<Dict<V>>, criteria: Dict<V>): (r: seq<Dict<V>>)
    ensures |r| <= |ds|
  {
    if ds == [] then []
    else
      var last := ds[|ds| - 1];
      Matching(ds[..|ds| - 1], criteria) + (if Matches(last, criteria) then [last] else [])
  }

  /** `search_dict_list`: the dicts that match every criterion, in their original order. */
  method SearchDictList<V(==)>(ds: seq<Dict<V>>, criteria: Dict<V>)
    returns (results: seq<Dict<V>>)
    ensures results == Matching(ds, criteria)
  {
    results := [];
    for i := 0 to |ds|
      invariant results == Matching(ds[..i], criteria)
    {
      var d := ds[i];
      var pending := criteria.Keys;
      var all := true;
      while all && pending != {}
        invariant pending <= criteria.Keys
        invariant all <==> forall k :: k in criteria && k !in pending ==> Get(d, k) == criteria[k]
        invariant !all ==> !Matches(d, criteria)
        decreases pending
      {
        var k :| k in pending;
        all := Get(d, k) == criteria[k];
        pending := pending - {k};
      }
      if all {
        results := results + [d];
      }
      assert ds[..i + 1][..i] == ds[..i];
    }
    assert ds[..|ds|] == ds;
  }

  /** What `search_dict_list` returns all match, and every matching dict is returned. */
  lemma {:induction false} MatchingExactly<V>(ds: seq<Dict<V>>, criteria: Dict<V>)
    ensures forall d :: d in Matching(ds, criteria) ==> d in ds && Matches(d, criteria)
    ensures forall d :: d in ds && Matches(d, criteria) ==> d in Matching(ds, criteria)
  {
    if ds != [] {
      var init := ds[..|ds| - 1];
      MatchingExactly(init, criteria);
      assert ds == init + [ds[|ds| - 1]];
    }
  }

  /** Empty criteria select every dict, in order. */
  lemma {:induction false} MatchingNoCriteria<V>(ds: seq<Dict<V>>)
    ensures Matching(ds, map[]) == ds
  {
    if ds != [] {
      MatchingNoCriteria(ds[..|ds| - 1]);
      assert ds[..|ds| - 1] + [ds[|ds| - 1]] == ds;
    }
  }

  /** Because `d.get` is used, a criterion `k: None` is met by a dict that lacks `k`. */
  lemma NoneCriterionMatchesMissingKey<V>(d: Dict<V>, k: string)
    ensures Matches(d, map[k := None]) <==> k !in d || d[k] == None
  {
    var criteria: Dict<V> := map[k := None];
    assert k in criteria;
  }

  /** `delete_keys`: the same dict without the listed keys; the other values are untouched. */
  function DeleteKeys<V>(d: Dict<V>, keys: seq<string>): (r: Dict<V>)
    ensures forall k :: k in r <==> k in d && k !in keys
    ensures forall k :: k in r ==> r[k] == d[k]
  {
    map k | k in d && k !in keys :: d[k]
  }

  /** Every key outside `keys` holds `None`. */
  predicate AllNoneExcept<V>(d: Dict<V>, keys: seq<string>)
  {
    forall k :: k in d && k !in keys ==> d[k] == None
  }

  /** `all_values_none_except_keys`: stops at the first non-`None` value of a key outside `keys`. */
  method AllValuesNoneExceptKeys<V>(d: Dict<V>, keys: seq<string>) returns (b: bool)
    ensures b <==> AllNoneExcept(d, keys)
  {
    var pending := d.Keys;
    while pending != {}
      invariant pending <= d.Keys
      invariant forall k :: k in d && k !in pending && k !in keys ==> d[k] == None
      decreases pending
    {
      var k :| k in pending;
      if k !in keys && d[k] != None {
        return false;
      }
      pending := pending - {k};
    }
    return true;
  }

  /** The check succeeds exactly when deleting `keys` leaves only `None` values. */
  lemma AllNoneExceptIsDeleteKeys<V>(d: Dict<V>, keys: seq<string>)
    ensures AllNoneExcept(d, keys) <==> forall k :: k in DeleteKeys(d, keys) ==> DeleteKeys(d, keys)[k] == None
  {
    var r := DeleteKeys(d, keys);
    if AllNoneExcept(d, keys) {
      forall k | k in r
        ensures r[k] == None
      {
        assert k in d && k !in keys;
      }
    } else {
      var k :| k in d && k !in keys && d[k] != None;
      assert k in r && r[k] != None;
    }
  }
}
