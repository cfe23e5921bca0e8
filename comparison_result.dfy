/**
 * The rank-bucket counters of `ComparisonResult`: four integers counting
 * top-1, top-2, top-3 and any-position hits. Values are immutable; `+` builds
 * a new value. Adding an operand of another type raises `TypeError`.
 */
module ComparisonResult {
  import opened Wrappers

  /** The record built by `ComparisonResult(top_1, top_2, top_3, any_position)`. */
  datatype ComparisonResult = ComparisonResult(top1: int, top2: int, top3: int, anyPosition: int)

  /** A right-hand operand of `+`: a `ComparisonResult` or any other Python value. */
  datatype Operand = Counters(result: ComparisonResult) | OtherValue

  /** The nesting of the buckets: every top-k count is within the wider ones. */
  predicate Nested(r: ComparisonResult)
  {
    r.top1 <= r.top2 <= r.top3 <= r.anyPosition
  }

  /** `__init__` with its default arguments: every counter starts at 0. */
  function Default(): (r: ComparisonResult)
    ensures r == NoHit()
  {
    ComparisonResult(0, 0, 0, 0)
  }

  /** `a + b`: the counter-wise sum. */
  function Add(a: ComparisonResult, b: ComparisonResult): (r: ComparisonResult)
    ensures r.top1 - a.top1 == b.top1 && r.top2 - a.top2 == b.top2
    ensures r.top3 - a.top3 == b.top3 && r.anyPosition - a.anyPosition == b.anyPosition
  {
    ComparisonResult(a.top1 + b.top1, a.top2 + b.top2, a.top3 + b.top3, a.anyPosition + b.anyPosition)
  }

  /** `a + other` for any right operand: `TypeError` unless it is a `ComparisonResult`. */
  function AddOperand(a: ComparisonResult, other: Operand): (r: Result<ComparisonResult, string>)
    ensures r.Err? <==> other.OtherValue?
    ensures r.Err? ==> r.error == "TypeError"
    ensures r.Ok? ==> r.value == Add(a, other.result)
  {
    match other
    case OtherValue => Err("TypeError")
    case Counters(b) => Ok(Add(a, b))
  }

  function TopOneHit(): (r: ComparisonResult)
    ensures Nested(r) && r.anyPosition <= 1 && r.top1 == 1
  {
    ComparisonResult(1, 1, 1, 1)
  }

  function TopTwoHit(): (r: ComparisonResult)
    ensures Nested(r) && r.anyPosition <= 1 && r.top1 == 0 && r.top2 == 1
  {
    ComparisonResult(0, 1, 1, 1)
  }

  function TopThreeHit(): (r: ComparisonResult)
    ensures Nested(r) && r.anyPosition <= 1 && r.top2 == 0 && r.top3 == 1
  {
    ComparisonResult(0, 0, 1, 1)
  }

  function AnyPositionHit(): (r: ComparisonResult)
    ensures Nested(r) && r.anyPosition == 1 && r.top3 == 0
  {
    ComparisonResult(0, 0, 0, 1)
  }

  function NoHit(): (r: ComparisonResult)
    ensures Nested(r) && r.anyPosition == 0 && r.top1 == 0
  {
    ComparisonResult(0, 0, 0, 0)
  }

  /** The five results the factory methods build. */
  predicate IsUnitResult(r: ComparisonResult)
  {
    r in {TopOneHit(), TopTwoHit(), TopThreeHit(), AnyPositionHit(), NoHit()}
  }

  /** A unit result is nested, non-negative and counts at most one sample. */
  lemma UnitResultBounds(r: ComparisonResult)
    requires IsUnitResult(r)
    ensures Nested(r) && 0 <= r.top1 && r.anyPosition <= 1
  {
  }

  /** `no_hit()` is a two-sided identity of `+`. */
  lemma NoHitIsIdentity(a: ComparisonResult)
    ensures Add(NoHit(), a) == a && Add(a, NoHit()) == a
  {
  }

  lemma AddCommutative(a: ComparisonResult, b: ComparisonResult)
    ensures Add(a, b) == Add(b, a)
  {
  }

  lemma AddAssociative(a: ComparisonResult, b: ComparisonResult, c: ComparisonResult)
    ensures Add(Add(a, b), c) == Add(a, Add(b, c))
  {
  }

  /** `+` keeps the nesting of the buckets. */
  lemma AddPreservesNested(a: ComparisonResult, b: ComparisonResult)
    requires Nested(a) && Nested(b)
    ensures Nested(Add(a, b))
  {
  }

  /** Left-to-right `r0 + r1 + ... + rn`, starting from `no_hit()`. */
  function Sum(rs: seq<ComparisonResult>): ComparisonResult
  {
    if rs == [] then NoHit() else Add(Sum(rs[..|rs| - 1]), rs[|rs| - 1])
  }

  /**
   * Aggregating unit results keeps the buckets nested, and no bucket counts
   * more hits than there were results.
   */
  lemma {:induction false} SumOfUnitResults(rs: seq<ComparisonResult>)
    requires forall k :: 0 <= k < |rs| ==> IsUnitResult(rs[k])
    ensures Nested(Sum(rs)) && 0 <= Sum(rs).top1 && Sum(rs).anyPosition <= |rs|
  {
    if rs != [] {
      SumOfUnitResults(rs[..|rs| - 1]);
      UnitResultBounds(rs[|rs| - 1]);
      AddPreservesNested(Sum(rs[..|rs| - 1]), rs[|rs| - 1]);
    }
  }

  /** Summing the five factory results gives the counters (1, 2, 3, 4). */
  lemma SumOfAllFactories()
    ensures Sum([TopOneHit(), TopTwoHit(), TopThreeHit(), AnyPositionHit(), NoHit()])
         == ComparisonResult(1, 2, 3, 4)
  {
    var rs := [TopOneHit(), TopTwoHit(), TopThreeHit(), AnyPositionHit(), NoHit()];
    assert rs[..1][..0] == [];
    assert Sum(rs[..1]) == ComparisonResult(1, 1, 1, 1);
    assert rs[..2][..1] == rs[..1];
    assert Sum(rs[..2]) == ComparisonResult(1, 2, 2, 2);
    assert rs[..3][..2] == rs[..2];
    assert Sum(rs[..3]) == ComparisonResult(1, 2, 3, 3);
    assert rs[..4][..3] == rs[..3];
    assert Sum(rs[..4]) == ComparisonResult(1, 2, 3, 4);
    assert rs[..4] == rs[..|rs| - 1];
  }
}
