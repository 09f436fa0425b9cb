/**
 * Sums of per-atom areas: the total of sasalib_calc and the per-class and
 * per-residue tables of sasalib_get_class_result, stated in exact arithmetic.
 */
module Areas {

  /** Sum of a sequence of areas, accumulated front to back as the C loops do. */
  function Sum(a: seq<real>): (total: real)
  {
    if |a| == 0 then 0.0 else Sum(a[..|a| - 1]) + a[|a| - 1]
  }

  function Zeros(n: nat): (t: seq<real>)
  {
    seq(n, _ => 0.0)
  }

  predicate NonNegative(a: seq<real>)
  {
    forall i :: 0 <= i < |a| ==> a[i] >= 0.0
  }

  predicate IdsBelow(ids: seq<int>, n: int)
  {
    forall i :: 0 <= i < |ids| ==> 0 <= ids[i] < n
  }

  /** The summed area of the atoms whose id is k. */
  function AreaOf(a: seq<real>, ids: seq<int>, k: int): (area: real)
    requires |ids| == |a|
  {
    if |a| == 0 then 0.0
    else AreaOf(a[..|a| - 1], ids[..|a| - 1], k) + (if ids[|a| - 1] == k then a[|a| - 1] else 0.0)
  }

  /** A table of n entries, entry k holding the area of the atoms with id k. */
  function Aggregate(a: seq<real>, ids: seq<int>, n: nat): (t: seq<real>)
    requires |ids| == |a|
  {
    seq(n, k => AreaOf(a, ids, k))
  }

  /** Entry-wise sum of two tables. */
  function AddTables(t: seq<real>, u: seq<real>): (sum: seq<real>)
    requires |t| == |u|
  {
    seq(|t|, k requires 0 <= k < |t| => t[k] + u[k])
  }

  /** A table that holds v at entry j and zero elsewhere. */
  function Single(n: nat, j: int, v: real): (t: seq<real>)
  {
    seq(n, k => if k == j then v else 0.0)
  }

  lemma {:induction false} SumNonNegative(a: seq<real>)
    requires NonNegative(a)
    ensures Sum(a) >= 0.0
  {
    if |a| > 0 {
      SumNonNegative(a[..|a| - 1]);
    }
  }

  lemma {:induction false} SumAddTables(t: seq<real>, u: seq<real>)
    requires |t| == |u|
    ensures Sum(AddTables(t, u)) == Sum(t) + Sum(u)
  {
    if |t| > 0 {
      var m := |t| - 1;
      assert AddTables(t, u)[..m] == AddTables(t[..m], u[..m]);
      SumAddTables(t[..m], u[..m]);
    }
  }

  lemma {:induction false} SumSingle(n: nat, j: int, v: real)
    ensures Sum(Single(n, j, v)) == if 0 <= j < n then v else 0.0
  {
    if n > 0 {
      assert Single(n, j, v)[..n - 1] == Single(n - 1, j, v);
      SumSingle(n - 1, j, v);
    }
  }

  lemma AddZeros(t: seq<real>)
    ensures AddTables(Zeros(|t|), t) == t
  {
  }

  /** One more atom adds its area to the entry of its id and to no other. */
  lemma AreaOfPrefixStep(a: seq<real>, ids: seq<int>, i: nat, k: int)
    requires |ids| == |a| && i < |a|
    ensures AreaOf(a[..i + 1], ids[..i + 1], k)
         == AreaOf(a[..i], ids[..i], k) + (if ids[i] == k then a[i] else 0.0)
  {
    assert a[..i + 1][..i] == a[..i];
    assert ids[..i + 1][..i] == ids[..i];
  }

  /**
   * Adding one more atom's area to a running table: the entry of its id grows
   * by the area, every other entry stays.
   */
  lemma AccumulateStep(t: seq<real>, a: seq<real>, ids: seq<int>, i: nat)
    requires |ids| == |a| && i < |a| && 0 <= ids[i] < |t|
    ensures AddTables(t, Aggregate(a[..i + 1], ids[..i + 1], |t|))
         == AddTables(t, Aggregate(a[..i], ids[..i], |t|))[ids[i] := AddTables(t, Aggregate(a[..i], ids[..i], |t|))[ids[i]] + a[i]]
  {
    forall k | 0 <= k < |t| {
      AreaOfPrefixStep(a, ids, i, k);
    }
  }

  /**
   * Aggregation loses and invents no area: when every id names an entry of
   * the table, the table's entries add up to the sum of the per-atom areas.
   */
  lemma {:induction false} AggregateConserves(a: seq<real>, ids: seq<int>, n: nat)
    requires |ids| == |a| && IdsBelow(ids, n)
    ensures Sum(Aggregate(a, ids, n)) == Sum(a)
  {
    if |a| == 0 {
      assert Aggregate(a, ids, n) == Single(n, -1, 0.0);
      SumSingle(n, -1, 0.0);
    } else {
      var m := |a| - 1;
      AggregateConserves(a[..m], ids[..m], n);
      assert Aggregate(a, ids, n) == AddTables(Aggregate(a[..m], ids[..m], n), Single(n, ids[m], a[m]));
      SumAddTables(Aggregate(a[..m], ids[..m], n), Single(n, ids[m], a[m]));
      SumSingle(n, ids[m], a[m]);
    }
  }

  /**
   * Aggregating into a zeroed table gives the per-id sums, and they add up
   * to the sum of the per-atom areas.
   */
  lemma FreshTable(a: seq<real>, ids: seq<int>, n: nat)
    requires |ids| == |a| && IdsBelow(ids, n)
    ensures AddTables(Zeros(n), Aggregate(a, ids, n)) == Aggregate(a, ids, n)
    ensures Sum(Aggregate(a, ids, n)) == Sum(a)
  {
    AddZeros(Aggregate(a, ids, n));
    AggregateConserves(a, ids, n);
  }

  /** With non-negative areas, no id's share exceeds the total. */
  lemma {:induction false} AreaOfBounded(a: seq<real>, ids: seq<int>, k: int)
    requires |ids| == |a| && NonNegative(a)
    ensures 0.0 <= AreaOf(a, ids, k) <= Sum(a)
  {
    if |a| > 0 {
      AreaOfBounded(a[..|a| - 1], ids[..|a| - 1], k);
    }
  }
}
